/**
 * What the two notifiers produce for a visitor message: the e-mail alert and
 * the WhatsApp deep link, each skipped when its environment setting is missing
 * or still holds a placeholder. Sending the mail and URL-encoding are outside
 * the model: the encoder is a parameter of the environment.
 */
module Notify {
  import opened Wrappers
  import opened Text

  /** The process environment the relay reads (`SMTP_USER`, `NOTIFICATION_EMAIL`, `WHATSAPP_NUMBER`). */
  datatype Env = Env(
    smtpUser: Option<string>,
    notificationEmail: Option<string>,
    whatsappNumber: Option<string>,
    encode: string -> string)

  datatype Mail = Mail(to: Option<string>, subject: string, text: string)

  datatype Alert = EmailAlert(mail: Mail) | WhatsAppAlert(number: string, link: string)

  const PlaceholderNumber := "33600000000"
  const WaPrefix := "https://wa.me/"
  const TextParam := "?text="
  const SubjectPrefix := "Nouveau message de Visitor "

  /** The SMTP user is set, non-empty and not one of the sample values. */
  predicate SmtpConfigured(user: Option<string>)
    ensures SmtpConfigured(user) ==> user.Some? && |user.value| > 0
  {
    user.Some? && user.value != "" && !Contains(user.value, "@example.com") && !Contains(user.value, "votre-email")
  }

  /** The WhatsApp number is set, non-empty and not the sample number. */
  predicate WhatsAppConfigured(number: Option<string>)
    ensures WhatsAppConfigured(number) ==> number.Some? && |number.value| > 0
  {
    number.Some? && number.value != "" && number.value != PlaceholderNumber
  }

  /** A user holding either sample marker anywhere is refused, whatever surrounds it, and so is a missing or empty user. */
  lemma SampleUsersRefused(before: string, after: string)
    ensures !SmtpConfigured(Some(before + "@example.com" + after))
    ensures !SmtpConfigured(Some(before + "votre-email" + after))
    ensures !SmtpConfigured(None) && !SmtpConfigured(Some(""))
  {
    ContainsSelf("@example.com");
    ContainsInLarger(before, "@example.com", after, "@example.com");
    ContainsSelf("votre-email");
    ContainsInLarger(before, "votre-email", after, "votre-email");
  }

  /** A missing number, an empty number and the sample number are refused. */
  lemma SampleNumbersRefused()
    ensures !WhatsAppConfigured(None) && !WhatsAppConfigured(Some("")) && !WhatsAppConfigured(Some(PlaceholderNumber))
  {
  }

  /** `visitorId.substring(0, 5)`. */
  function Prefix5(s: string): (r: string)
    ensures |r| <= 5 && r <= s
    ensures |s| >= 5 ==> |r| == 5
    ensures |s| < 5 ==> r == s
  {
    if |s| <= 5 then s else s[..5]
  }

  /** The mail `sendNotificationEmail` hands to the transport, or nothing when SMTP is not configured. */
  function EmailFor(env: Env, visitorId: string, text: string): (o: Option<Mail>)
    ensures o.Some? <==> SmtpConfigured(env.smtpUser)
    ensures o.Some? ==> o.value.to == env.notificationEmail
    ensures o.Some? ==> SubjectPrefix <= o.value.subject && o.value.subject[|SubjectPrefix|..] == Prefix5(visitorId)
    ensures o.Some? ==> Contains(o.value.text, text)
  {
    if !SmtpConfigured(env.smtpUser) then None
    else
      var body := "Vous avez reçu un nouveau message sur asad.to :\n\n\"" + text +
        "\"\n\nRépondez sur votre dashboard: http://localhost:5175/inbox";
      ContainsSelf(text);
      ContainsInLarger("Vous avez reçu un nouveau message sur asad.to :\n\n\"", text,
        "\"\n\nRépondez sur votre dashboard: http://localhost:5175/inbox", text);
      Some(Mail(env.notificationEmail, SubjectPrefix + Prefix5(visitorId), body))
  }

  /** The text the WhatsApp link carries, before encoding. */
  function WhatsAppMessage(visitorId: string, text: string): string {
    "Nouveau message asad.to de " + visitorId + ": " + text
  }

  /** `https://wa.me/<number>?text=<encoded>`. */
  function WaLink(number: string, encoded: string): string {
    WaPrefix + number + TextParam + encoded
  }

  /** The deep link `sendWhatsAppNotification` logs, or nothing when no real number is configured. */
  function WhatsAppFor(env: Env, visitorId: string, text: string): (o: Option<Alert>)
    ensures o.Some? <==> WhatsAppConfigured(env.whatsappNumber)
    ensures o.Some? ==> o.value == WhatsAppAlert(env.whatsappNumber.value,
      WaLink(env.whatsappNumber.value, env.encode(WhatsAppMessage(visitorId, text))))
  {
    if !WhatsAppConfigured(env.whatsappNumber) then None
    else
      var number := env.whatsappNumber.value;
      Some(WhatsAppAlert(number, WaLink(number, env.encode(WhatsAppMessage(visitorId, text)))))
  }

  /** Reads a deep link back: the number between the prefix and the first '?', and the encoded text. */
  function ParseWaLink(link: string): Option<(string, string)> {
    if !(WaPrefix <= link) then None
    else
      var rest := link[|WaPrefix|..];
      match FirstIndexOf(rest, '?')
      case None => None
      case Some(q) =>
        if TextParam <= rest[q..] then Some((rest[..q], rest[q + |TextParam|..])) else None
  }

  function FirstIndexOf(s: string, c: char): (o: Option<nat>)
    ensures o.Some? ==> o.value < |s| && s[o.value] == c && c !in s[..o.value]
    ensures o.None? ==> c !in s
  {
    if s == [] then None
    else if s[0] == c then Some(0)
    else match FirstIndexOf(s[1..], c)
      case None => None
      case Some(i) =>
        assert s[..i + 1] == [s[0]] + s[1..][..i];
        Some(i + 1)
  }

  /** A number without '?' is recovered from its link, and so is the encoded text. */
  lemma WaLinkRoundTrip(number: string, encoded: string)
    requires '?' !in number
    ensures ParseWaLink(WaLink(number, encoded)) == Some((number, encoded))
  {
    var link := WaLink(number, encoded);
    assert link == WaPrefix + (number + TextParam + encoded);
    var rest := link[|WaPrefix|..];
    assert rest == number + TextParam + encoded;
    assert rest[|number|] == '?';
    assert rest[..|number|] == number;
    var q := FirstIndexOf(rest, '?');
    assert q == Some(|number|);
    assert rest[|number|..] == TextParam + encoded;
  }
}
