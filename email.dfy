/** The email transport wrapper (src/lib/email.ts): the SMTP options derived
    from the settings, the message handed to the transport, the bulk send
    and its summary, and the conditional pieces of the HTML template. */
module Email {
  import opened Wrappers
  import opened EmailSettings
  import opened Delivery
  import Text

  /** `auth: { user, pass }` */
  datatype SmtpAuth = SmtpAuth(user: string, pass: string)

  /** The options `createTransport` is called with. `tls` holds
      `rejectUnauthorized` when present. */
  datatype TransportOptions = TransportOptions(
    host: string,
    port: int,
    secure: bool,
    auth: Option<SmtpAuth>,
    tls: Option<bool>)

  const NotConfiguredError: string := "SMTP not configured: missing host or from address"
  const UnknownEmailError: string := "Unknown error sending email"
  const DefaultFromName: string := "Status Page"

  /** `createTransporter`: fails when the host or the from address is
      missing; otherwise derives the connection options. `production` is
      whether `NODE_ENV` is `production`. */
  function CreateTransporter(s: EmailSettingsDoc, production: bool): (r: Result<TransportOptions, string>)
    ensures r.Err? <==> s.smtpHost == "" || s.smtpFromAddress == ""
    ensures r.Err? ==> r.error == NotConfiguredError
    ensures r.Ok? ==>
      && r.value.host == s.smtpHost
      && (r.value.secure <==> s.smtpSecure == Some(Ssl))
      && (s.smtpPort.Some? && s.smtpPort.value != 0 ==> r.value.port == s.smtpPort.value)
      && (s.smtpPort.None? || s.smtpPort.value == 0 ==> r.value.port == if r.value.secure then 465 else 587)
      && (r.value.auth.Some? <==> s.smtpUsername != "")
      && (r.value.auth.Some? ==> r.value.auth.value == SmtpAuth(s.smtpUsername, s.smtpPassword))
      && (r.value.tls.Some? <==> s.smtpSecure == Some(Tls))
      && (r.value.tls.Some? ==> r.value.tls.value == production)
  {
    if s.smtpHost == "" || s.smtpFromAddress == "" then Err(NotConfiguredError)
    else
      var secure := s.smtpSecure == Some(Ssl);
      var port := if s.smtpPort.Some? && s.smtpPort.value != 0 then s.smtpPort.value else if secure then 465 else 587;
      Ok(TransportOptions(
        s.smtpHost, port, secure,
        if s.smtpUsername != "" then Some(SmtpAuth(s.smtpUsername, s.smtpPassword)) else None,
        if s.smtpSecure == Some(Tls) then Some(production) else None))
  }

  /** `EmailOptions`; empty `text` and `unsubscribeUrl` stand for absent. */
  datatype EmailOptions = EmailOptions(to: string, subject: string, html: string, text: string, unsubscribeUrl: string)

  /** The message handed to `sendMail`. An empty `replyTo` is absent. */
  datatype MailMessage = MailMessage(
    from: string,
    to: string,
    replyTo: string,
    subject: string,
    html: string,
    text: string,
    headers: map<string, string>)

  /** `"name" <address>`, the display name falling back from the SMTP from
      name to the site name to `Status Page`. */
  const Quote: string := "\""

  function FromHeader(s: EmailSettingsDoc, siteName: string): (r: string)
    ensures var name := if s.smtpFromName != "" then s.smtpFromName else if siteName != "" then siteName else DefaultFromName;
      r == "\"" + name + "\" <" + s.smtpFromAddress + ">"
  {
    var name := if s.smtpFromName != "" then s.smtpFromName else if siteName != "" then siteName else DefaultFromName;
    Quote + name + Quote + " <" + s.smtpFromAddress + ">"
  }

  /** The unsubscribe headers: both present exactly when an unsubscribe URL
      is given, none otherwise. */
  const ListUnsubscribe: string := "List-Unsubscribe"
  const ListUnsubscribePost: string := "List-Unsubscribe-Post"
  const OneClick: string := "List-Unsubscribe=One-Click"

  function UnsubscribeHeaders(unsubscribeUrl: string): (h: map<string, string>)
    ensures unsubscribeUrl == "" ==> h == map[]
    ensures unsubscribeUrl != "" ==> h.Keys == {ListUnsubscribe, ListUnsubscribePost}
    ensures unsubscribeUrl != "" ==> h[ListUnsubscribe] == "<" + unsubscribeUrl + ">"
    ensures unsubscribeUrl != "" ==> h[ListUnsubscribePost] == OneClick
  {
    if unsubscribeUrl == "" then map[]
    else map[ListUnsubscribe := "<" + unsubscribeUrl + ">", ListUnsubscribePost := OneClick]
  }

  /** The message `sendEmail` builds: sender, reply address (the SMTP
      reply-to, else the from address), and a plain text that is the given
      text or, failing that, the HTML with its tags removed. */
  function MailFor(s: EmailSettingsDoc, siteName: string, options: EmailOptions): (m: MailMessage)
    ensures m.from == FromHeader(s, siteName) && m.to == options.to && m.subject == options.subject && m.html == options.html
    ensures m.replyTo == if s.smtpReplyTo != "" then s.smtpReplyTo else s.smtpFromAddress
    ensures m.headers == UnsubscribeHeaders(options.unsubscribeUrl)
    ensures options.text != "" ==> m.text == options.text
    ensures options.text == "" ==> m.text == Text.StripTags(options.html)
  {
    MailMessage(
      FromHeader(s, siteName),
      options.to,
      if s.smtpReplyTo != "" then s.smtpReplyTo else s.smtpFromAddress,
      options.subject,
      options.html,
      if options.text != "" then options.text else Text.StripTags(options.html),
      UnsubscribeHeaders(options.unsubscribeUrl))
  }

  /** `sendEmail`: never throws; a configuration error or a transport
      failure becomes a failed result carrying the error text. */
  function SendEmail(s: EmailSettingsDoc, siteName: string, production: bool,
                     send: MailMessage -> TransportOutcome, options: EmailOptions): (r: SendResult)
    ensures CreateTransporter(s, production).Err? ==> r == NotDelivered(NotConfiguredError)
    ensures CreateTransporter(s, production).Ok? ==>
      match send(MailFor(s, siteName, options))
      case Accepted(id) => r == Delivered(id)
      case Threw(reason) => r == NotDelivered(FailureText(reason, UnknownEmailError))
  {
    match CreateTransporter(s, production)
    case Err(e) => NotDelivered(e)
    case Ok(_) =>
      match send(MailFor(s, siteName, options))
      case Accepted(id) => Delivered(id)
      case Threw(reason) => NotDelivered(FailureText(reason, UnknownEmailError))
  }

  /** The `Promise.all` over the emails, as an order-preserving map. */
  function SendAllEmails(s: EmailSettingsDoc, siteName: string, production: bool,
                         send: MailMessage -> TransportOutcome, emails: seq<EmailOptions>): (r: seq<SendResult>)
    ensures |r| == |emails|
    ensures forall k :: 0 <= k < |emails| ==> r[k] == SendEmail(s, siteName, production, send, emails[k])
  {
    if emails == [] then []
    else [SendEmail(s, siteName, production, send, emails[0])] + SendAllEmails(s, siteName, production, send, emails[1..])
  }

  /** `sendBulkEmails`: every email is sent once, and the summary counts
      all of them. Without a usable configuration nothing is sent and each
      email fails with the configuration error. */
  function SendBulkEmails(s: EmailSettingsDoc, siteName: string, production: bool,
                          send: MailMessage -> TransportOutcome, emails: seq<EmailOptions>): (r: BulkSummary)
    ensures r == Summarize(SendAllEmails(s, siteName, production, send, emails))
    ensures r.sent + r.failed == |emails|
    ensures |r.errors| <= r.failed
    ensures CreateTransporter(s, production).Err? ==>
      r == BulkSummary(0, |emails|, seq(|emails|, _ => NotConfiguredError))
  {
    var results := SendAllEmails(s, siteName, production, send, emails);
    if CreateTransporter(s, production).Err? then
      AllFailedSummary(results, NotConfiguredError);
      Summarize(results)
    else Summarize(results)
  }

  /** The inputs of `generateEmailHtml`; empty optional strings are absent. */
  datatype EmailHtmlOptions = EmailHtmlOptions(
    siteName: string,
    title: string,
    body: string,
    ctaText: string,
    ctaUrl: string,
    unsubscribeUrl: string,
    siteUrl: string,
    logoUrl: string)

  /** The header: a logo image, or the site name as text. */
  datatype EmailHeader = LogoImage(src: string, alt: string) | LogoText(name: string)

  /** The template's variable pieces. */
  datatype EmailLayout = EmailLayout(
    header: EmailHeader,
    title: string,
    bodyHtml: string,
    cta: Option<(string, string)>,
    siteUrl: string,
    siteName: string,
    unsubscribeUrl: Option<string>)

  predicate StartsWith(s: string, prefix: string) {
    prefix <= s
  }

  const HttpScheme: string := "http"
  const LineBreak: string := "<br>"

  /** The absolute logo URL: a URL starting with `http` is kept; any other
      path is joined to the site URL with exactly one `/` between them. */
  function AbsoluteLogoUrl(logoUrl: string, siteUrl: string): (r: Option<string>)
    ensures logoUrl == "" <==> r.None?
    ensures logoUrl != "" && StartsWith(logoUrl, HttpScheme) ==> r == Some(logoUrl)
    ensures logoUrl != "" && !StartsWith(logoUrl, HttpScheme) ==>
      exists path :: r == Some(siteUrl + path) && |path| >= 1 && path[0] == '/'
        && (path == logoUrl <==> logoUrl[0] == '/') && (path != logoUrl ==> path[1..] == logoUrl)
  {
    if logoUrl == "" then None
    else if StartsWith(logoUrl, HttpScheme) then Some(logoUrl)
    else
      var path := if logoUrl[0] == '/' then logoUrl else "/" + logoUrl;
      assert path[0] == '/' && (path == logoUrl <==> logoUrl[0] == '/') && (path != logoUrl ==> path[1..] == logoUrl);
      Some(siteUrl + path)
  }

  /** Every line break of a body becomes `<br>` and nothing else changes:
      lines joined by newlines render as the same lines joined by `<br>`. */
  lemma BodyHtmlRendersLineBreaks(lines: seq<string>)
    requires lines != []
    requires forall k :: 0 <= k < |lines| ==> !Text.Occurs("\n", lines[k])
    ensures BodyHtml(Text.Join(lines, "\n")) == Text.Join(lines, LineBreak)
  {
    Text.ReplaceAllFillsTemplate(lines, "\n", LineBreak);
  }

  /** `body.replace(/\n/g, '<br>')` */
  function BodyHtml(body: string): (r: string)
    ensures '\n' !in r
    ensures '\n' !in body ==> r == body
  {
    Text.ReplaceCharRemovesIt(body, '\n', LineBreak);
    if '\n' !in body then
      Text.AbsentCharDoesNotOccur('\n', body);
      Text.ReplaceAllWithoutPattern(body, "\n", "<br>");
      Text.ReplaceAll(body, "\n", "<br>")
    else Text.ReplaceAll(body, "\n", LineBreak)
  }

  /** The pieces `generateEmailHtml` fills in: the logo image when a logo
      URL is given (else the site name), the body with line breaks, the call
      to action only when both its text and its URL are set, and the
      unsubscribe link only when a URL is given. */
  function EmailLayoutOf(o: EmailHtmlOptions): (l: EmailLayout)
    ensures l.header.LogoImage? <==> o.logoUrl != ""
    ensures l.header.LogoImage? ==> Some(l.header.src) == AbsoluteLogoUrl(o.logoUrl, o.siteUrl) && l.header.alt == o.siteName
    ensures l.header.LogoText? ==> l.header.name == o.siteName
    ensures l.title == o.title && l.siteUrl == o.siteUrl && l.siteName == o.siteName
    ensures l.bodyHtml == BodyHtml(o.body)
    ensures l.cta.Some? <==> o.ctaText != "" && o.ctaUrl != ""
    ensures l.cta.Some? ==> l.cta.value == (o.ctaText, o.ctaUrl)
    ensures l.unsubscribeUrl.Some? <==> o.unsubscribeUrl != ""
    ensures l.unsubscribeUrl.Some? ==> l.unsubscribeUrl.value == o.unsubscribeUrl
  {
    var logo := AbsoluteLogoUrl(o.logoUrl, o.siteUrl);
    EmailLayout(
      if logo.Some? then LogoImage(logo.value, o.siteName) else LogoText(o.siteName),
      o.title,
      BodyHtml(o.body),
      if o.ctaText != "" && o.ctaUrl != "" then Some((o.ctaText, o.ctaUrl)) else None,
      o.siteUrl,
      o.siteName,
      if o.unsubscribeUrl != "" then Some(o.unsubscribeUrl) else None)
  }

  function HeaderHtml(h: EmailHeader): string {
    match h
    case LogoImage(src, alt) => ImageOpening + src + AltAttribute + alt + ImageClosing
    case LogoText(name) => LogoTextOpening + name + DivClosing
  }

  function CtaHtml(cta: Option<(string, string)>): string {
    match cta
    case Some((text, url)) => CtaOpening + url + CtaLinkClass + text + CtaClosing
    case None => ""
  }

  /** The footer's unsubscribe paragraph. */
  function UnsubscribeHtml(url: string): string {
    UnsubscribeOpening + url + UnsubscribeClosing
  }

  const ImageOpening: string := "<img src=\""
  const AltAttribute: string := "\" alt=\""
  const ImageClosing: string := "\" class=\"logo-img\" />"
  const LogoTextOpening: string := "<div class=\"logo-text\">"
  const DivClosing: string := "</div>"
  const CtaOpening: string := "<div style=\"text-align: center;\">\n<a href=\""
  const CtaLinkClass: string := "\" class=\"cta\">"
  const CtaClosing: string := "</a>\n</div>\n"
  const UnsubscribeOpening: string := "<p><a href=\""
  const UnsubscribeClosing: string := "\">Unsubscribe from status updates</a></p>"

  /** Everything of the document before the footer's unsubscribe part. */
  function RenderUpToFooter(l: EmailLayout): string {
    HeadHtml(l.title) + HeaderBlock(l) + MainHtml(l.bodyHtml) + CtaHtml(l.cta) + FooterHtml(l.siteUrl, l.siteName)
  }

  /** The document head, with the title as the page title. */
  function HeadHtml(title: string): string {
    DocumentOpening + title + HeadClosing
  }

  /** The header block and the opening of the title block. */
  function HeaderBlock(l: EmailLayout): string {
    HeaderHtml(l.header) + HeaderClosing + l.title
  }

  /** The end of the title block and the body block. */
  function MainHtml(bodyHtml: string): string {
    TitleClosing + bodyHtml + BodyClosing
  }

  /** The footer's "sent from" line, linking to the site. */
  function FooterHtml(siteUrl: string, siteName: string): string {
    FooterOpening + siteUrl + FooterLinkText + siteName + FooterClosing
  }

  function UnsubscribePart(url: Option<string>): string {
    if url.Some? then UnsubscribeHtml(url.value) else ""
  }

  const DocumentOpening: string :=
    "\n<!DOCTYPE html>\n<html lang=\"en\">\n<head>\n<meta charset=\"UTF-8\">\n"
    + "<meta name=\"viewport\" content=\"width=device-width, initial-scale=1.0\">\n<title>"
  const HeadClosing: string := "</title>\n</head>\n<body>\n<div class=\"container\">\n<div class=\"header\">\n"
  const HeaderClosing: string := "\n</div>\n<div class=\"title\">"
  const TitleClosing: string := "</div>\n<div class=\"body\">"
  const BodyClosing: string := "</div>\n"
  const FooterOpening: string := "<div class=\"footer\">\n<p>This email was sent from <a href=\""
  const FooterLinkText: string := "\">"
  const FooterClosing: string := "</a></p>\n"

  const ClosingHtml: string := "</div>\n</div>\n</body>\n</html>\n"

  /** The document the template produces from its pieces (without the
      inline style sheet). */
  function RenderEmailHtml(l: EmailLayout): string {
    RenderUpToFooter(l) + UnsubscribePart(l.unsubscribeUrl) + ClosingHtml
  }

  /** `generateEmailHtml` */
  function GenerateEmailHtml(o: EmailHtmlOptions): string {
    RenderEmailHtml(EmailLayoutOf(o))
  }

  /** The rendered email opens with the title as the page title, holds the
      body with its line breaks rendered, holds the call to action when both
      its text and its URL are set, and ends with the closing markup. */
  lemma GeneratedEmailHtmlShape(o: EmailHtmlOptions)
    ensures var r := GenerateEmailHtml(o);
      && HeadHtml(o.title) <= r
      && Text.Occurs(MainHtml(BodyHtml(o.body)), r)
      && (o.ctaText != "" && o.ctaUrl != "" ==> Text.Occurs(CtaHtml(Some((o.ctaText, o.ctaUrl))), r))
      && |ClosingHtml| <= |r| && r[|r| - |ClosingHtml|..] == ClosingHtml
  {
    var l := EmailLayoutOf(o);
    DocumentPieces(
      HeadHtml(l.title), HeaderBlock(l), MainHtml(l.bodyHtml), CtaHtml(l.cta), FooterHtml(l.siteUrl, l.siteName),
      UnsubscribePart(l.unsubscribeUrl), ClosingHtml, GenerateEmailHtml(o));
  }

  /** Where the pieces of a document made of seven consecutive pieces are. */
  lemma DocumentPieces(head: string, header: string, main: string, cta: string, footer: string, unsub: string, closing: string, r: string)
    requires r == head + header + main + cta + footer + unsub + closing
    ensures head <= r
    ensures Text.Occurs(main, r) && Text.Occurs(cta, r)
    ensures |closing| <= |r| && r[|r| - |closing|..] == closing
  {
    Text.OccursInConcat(head + header, main, cta + footer + unsub + closing);
    assert r == head + header + main + (cta + footer + unsub + closing);
    Text.OccursInConcat(head + header + main, cta, footer + unsub + closing);
    assert r == head + header + main + cta + (footer + unsub + closing);
  }

  /** A given unsubscribe URL always reaches the rendered email as the
      footer link. */
  lemma UnsubscribeLinkRendered(o: EmailHtmlOptions)
    requires o.unsubscribeUrl != ""
    ensures Text.Occurs(UnsubscribeHtml(o.unsubscribeUrl), GenerateEmailHtml(o))
  {
    var l := EmailLayoutOf(o);
    Text.OccursInConcat(RenderUpToFooter(l), UnsubscribeHtml(o.unsubscribeUrl), ClosingHtml);
  }
}
