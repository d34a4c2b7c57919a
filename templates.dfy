/** The three HTML bodies the email service sends, as
    `internal/service/email_templates.go` builds them with `fmt.Sprintf`.
    Each template is a format cut at its verbs (a sequence of pieces, see
    module `Format`). The pieces are spelled here from named parts so that
    the frame the three templates share is written once. The current year,
    which the Go code reads from the clock, is a parameter. */
module EmailTemplates {
  import opened Text
  import opened Format

  // ---------------------------------------------------------------------------
  // Phrases the properties are about
  // ---------------------------------------------------------------------------

  /** The newline right after the opening backquote, then the doctype (lines 11-12). */
  const DocType: string := "\n<!DOCTYPE html>"

  /** The tags every template must hold (the structure of lines 12-19 and 63-68). */
  const HtmlOpenTag: string := "<html>"

  const HtmlClose: string := "</html>"

  const HeadOpenTag: string := "<head>"

  const HeadCloseTag: string := "</head>"

  const BodyTagStart: string := "<body"

  const BodyCloseTag: string := "</body>"

  const TableTagStart: string := "<table"

  const TableCloseTag: string := "</table>"

  /** The character-set and viewport declarations of the head (lines 15-16). */
  const CharsetAttribute: string := "charset=\"utf-8\""

  const ViewportMeta: string := "<meta name=\"viewport\""

  /** What follows `</html>` up to the closing backquote (lines 68-69). */
  const TrailingSpace: string := "\n    "

  const BrandName: string := "Sponsoration"

  const VerifyTitle: string := "Verify Your Email"

  const VerifyHeading: string := "Verify Your Email Address"

  const ResetHeading: string := "Reset Your Password"

  const WelcomeTitle: string := "Welcome to Sponsoration"

  const ExpiryNotice: string := "24 hours"

  const SecurityTip: string := "Security Tip"

  /** The padlock emoji of the reset header (line 91) and the party popper of the welcome header (line 165). */
  const LockIcon: string := "\U{1F512}"

  const PartyIcon: string := "\U{1F389}"

  const DashboardLabel: string := "Go to Dashboard"

  const HiPrefix: string := "Hi "

  const HrefOpen: string := "<a href=\""

  const PolicyPath: string := "/privacy/policy"

  const TermsPath: string := "/privacy/terms"

  const SubheadingOpen: string := "              <h2 style=\"margin: 0 " + "0 20px 0; color: #1F2937; " + "font-size: 24px;\">"

  /** The footer text around the year that `%d` prints (lines 59, 133 and 199). */
  const CopyrightSign: string := "\U{A9} "

  const RightsReserved: string := " Sponsoration. All rights reserved."


  // ---------------------------------------------------------------------------
  // The frame the three templates share
  // ---------------------------------------------------------------------------

  /** Lines 12-17, up to the page title. */
  const HeadStart: string :=
    "\n"
    + HtmlOpenTag + "\n"
    + HeadOpenTag + "\n"
    + "  <meta " + CharsetAttribute + ">\n"
    + "  " + ViewportMeta + " content=\"width=device-width, " + "initial-scale=1.0\">\n"
    + "  <title>"

  const HeadEnd: string :=
    "</title>\n"
    + HeadCloseTag + "\n"

  /** Lines 11-18: the doctype and the head, with the page title. */
  function DocumentHead(title: string): string
  {
    DocType + HeadStart + title + HeadEnd
  }

  /** Lines 19-23: the body and the two layout tables. The literal writes `100%%`, which prints as `100%`. */
  const BodyStart: string :=
    BodyTagStart + " style=\"margin: 0; padding: 0; " + "font-family: Arial, sans-serif; " + "background-color: #f4f4f4;\">\n"

  const OuterTableOpen: string :=
    "  " + TableTagStart + " width=\"100%\" cellpadding=\"0\" " + "cellspacing=\"0\" " + "style=\"background-color: #f4f4f4; " + "padding: 20px;\">\n"
    + "    <tr>\n"
    + "      <td align=\"center\">\n"

  const CardTableOpen: string :=
    "        " + TableTagStart + " width=\"600\" cellpadding=\"0\" " + "cellspacing=\"0\" " + "style=\"background-color: #ffffff; " + "border-radius: 8px; overflow: " + "hidden;\">\n"

  const BodyOpen: string :=
    BodyStart + OuterTableOpen + CardTableOpen

  const HeaderRowOpen: string :=
    "          <!-- Header -->\n"
    + "          <tr>\n"
    + "            <td " + "style=\"background-color: "

  function HeaderBandOpen(color: string): string
  {
    HeaderRowOpen + color + "; padding: 30px 40px; text-align: " + "center;\">\n"
    + "              <h1 style=\"margin: 0; " + "color: #ffffff; font-size: 28px;\">"
  }

  const HeaderBandClose: string :=
    "</h1>\n"
    + "            </td>\n"
    + "          </tr>\n"
    + "\n"

  /** Lines 24-30: the coloured header row and its heading. */
  function HeaderBand(color: string, heading: string): string
  {
    HeaderBandOpen(color) + heading + HeaderBandClose
  }

  /** Lines 31-33. */
  const ContentOpen: string :=
    "          <!-- Content -->\n"
    + "          <tr>\n"
    + "            <td style=\"padding: " + "40px;\">\n"

  /** Lines 11-34 up to the first verb: everything above the greeting or prompt of a template. */
  function DocumentTop(title: string, color: string, heading: string, intro: string): string
  {
    DocumentHead(title) + BodyOpen + HeaderBand(color, heading) + ContentOpen + intro
  }

  /** Lines 42-49 (and 109-116): the end of the code box and the 24-hour expiry note. */
  const ExpiryLead: string :=
    "\n"
    + "                </div>\n"
    + "              </div>\n"
    + "\n"
    + "              <p style=\"margin: " + "20px 0 0 0; color: #6B7280; " + "font-size: 14px; line-height: " + "1.5;\">\n"
    + "                This code will " + "expire in <strong>"

  const ExpiryTail: string :=
    "</strong>.\n"
    + "              </p>\n"
    + "              <p style=\"margin: " + "10px 0 0 0; color: #6B7280; " + "font-size: 14px; line-height: " + "1.5;\">\n"

  const ExpiryParagraph: string :=
    ExpiryLead + ExpiryNotice + ExpiryTail

  /** Lines 55-59, up to the year. */
  const FooterOpen: string :=
    "          <!-- Footer -->\n"
    + "          <tr>\n"
    + "            <td " + "style=\"background-color: #F9FAFB; " + "padding: 30px 40px; text-align: " + "center; border-top: 1px solid " + "#E5E7EB;\">\n"
    + "              <p style=\"margin: 0; " + "color: #9CA3AF; font-size: 12px;\">\n"
    + "                " + CopyrightSign

  const FooterClose: string :=
    "\n"
    + "              </p>\n"
    + "            </td>\n"
    + "          </tr>\n"

  /** Lines 63-69: the closing tags, `</html>` and the indentation before the closing backquote. */
  const TableClose: string :=
    "        " + TableCloseTag + "\n"
    + "      </td>\n"
    + "    </tr>\n"
    + "  " + TableCloseTag + "\n"
    + BodyCloseTag + "\n"

  const DocumentClosing: string :=
    TableClose + HtmlClose + TrailingSpace

  /** Lines 59-69 after the year, shared by the verification and reset templates. */
  const FooterAfterYear: string :=
    RightsReserved + FooterClose + DocumentClosing


  // ---------------------------------------------------------------------------
  // The verification template, lines 11-69
  // ---------------------------------------------------------------------------

  /** Lines 34-37: the thank-you paragraph. */
  const VerificationThanks: string :=
    "              <p style=\"margin: 0 0 " + "20px 0; color: #4B5563; font-size: " + "16px; line-height: 1.5;\">\n"
    + "                Thank you for " + "registering! Please use the " + "following code to verify your email " + "address:\n"
    + "              </p>\n"

  /** Lines 38-41: the code box, up to the code. */
  const VerificationCodeBoxOpen: string :=
    "\n"
    + "              <!-- Code Box -->\n"
    + "              <div " + "style=\"background-color: #F3F4F6; " + "border-radius: 8px; padding: 30px; " + "text-align: center; margin: 30px " + "0;\">\n"

  const VerificationCodeStyle: string :=
    "                <div " + "style=\"font-size: 32px; " + "font-weight: bold; letter-spacing: " + "8px; color: #4F46E5; font-family: " + "'Courier New', monospace;\">\n"
    + "                  "

  const VerificationPrompt: string :=
    "</h2>\n"
    + VerificationThanks + VerificationCodeBoxOpen + VerificationCodeStyle

  const VerificationIntro: string :=
    SubheadingOpen + VerifyHeading + VerificationPrompt

  /** Lines 11-42, up to the `%s` that takes the code. */
  const VerificationBeforeCode: string :=
    DocumentTop(VerifyTitle, "#4F46E5", BrandName, VerificationIntro)

  const VerificationDisclaimer: string :=
    "                If you didn't " + "request this verification, please " + "ignore this email.\n"
    + "              </p>\n"
    + "            </td>\n"
    + "          </tr>\n"
    + "\n"

  /** Lines 42-59, between the code and the `%d` that takes the year. */
  const VerificationBeforeYear: string :=
    ExpiryParagraph + VerificationDisclaimer + FooterOpen


  // ---------------------------------------------------------------------------
  // The password-reset template, lines 75-143
  // ---------------------------------------------------------------------------

  const GreetingOpen: string :=
    "</h2>\n"
    + "              <p style=\"margin: 0 0 " + "20px 0; color: #4B5563; font-size: " + "16px; line-height: 1.5;\">\n"
    + "                "

  const ResetIntro: string :=
    SubheadingOpen + ResetHeading + GreetingOpen

  /** Lines 75-100, up to the `%s` that takes the greeting. */
  const ResetBeforeGreeting: string :=
    DocumentTop(ResetHeading, "#DC2626", LockIcon + " Password Reset", ResetIntro)

  /** Lines 100-109, between the greeting and the `%s` that takes the code. */
  /** Lines 101-104: the request paragraph. */
  const ResetInstructions: string :=
    "              </p>\n"
    + "              <p style=\"margin: 0 0 " + "20px 0; color: #4B5563; font-size: " + "16px; line-height: 1.5;\">\n"
    + "                You requested to " + "reset your password. Please use the " + "following code:\n"
    + "              </p>\n"

  /** Lines 105-108: the code box, up to the code. */
  const ResetCodeBoxOpen: string :=
    "\n"
    + "              <!-- Code Box -->\n"
    + "              <div " + "style=\"background-color: #FEF2F2; " + "border: 2px solid #FCA5A5; " + "border-radius: 8px; padding: 30px; " + "text-align: center; margin: 30px " + "0;\">\n"

  const ResetCodeStyle: string :=
    "                <div " + "style=\"font-size: 32px; " + "font-weight: bold; letter-spacing: " + "8px; color: #DC2626; font-family: " + "'Courier New', monospace;\">\n"
    + "                  "

  const ResetBetweenGreetingAndCode: string :=
    "\n"
    + ResetInstructions + ResetCodeBoxOpen + ResetCodeStyle

  const ResetDisclaimer: string :=
    "                If you didn't " + "request a password reset, please " + "ignore this email and your password " + "will remain unchanged.\n"
    + "              </p>\n"
    + "\n"

  const SecurityNoticeOpen: string :=
    "              <!-- Security Notice " + "-->\n"
    + "              <div " + "style=\"background-color: #FFFBEB; " + "border-left: 4px solid #F59E0B; " + "padding: 15px; margin-top: 30px;\">\n"
    + "                <p style=\"margin: " + "0; color: #92400E; font-size: 13px; " + "line-height: 1.5;\">\n"
    + "                  <strong>"

  const SecurityNoticeClose: string :=
    ":</strong> Never share your " + "password reset code with anyone. " + "Sponsoration staff will never ask " + "for this code.\n"
    + "                </p>\n"
    + "              </div>\n"
    + "            </td>\n"
    + "          </tr>\n"
    + "\n"

  /** Lines 120-125: the security tip. */
  const SecurityNotice: string :=
    SecurityNoticeOpen + SecurityTip + SecurityNoticeClose

  /** Lines 109-133, between the code and the `%d` that takes the year. */
  const ResetBeforeYear: string :=
    ExpiryParagraph + ResetDisclaimer + SecurityNotice + FooterOpen


  // ---------------------------------------------------------------------------
  // The welcome template, lines 149-213
  // ---------------------------------------------------------------------------

  const WelcomeIntro: string :=
    SubheadingOpen + HiPrefix

  /** Lines 149-172, up to the `%s` that takes the name. */
  const WelcomeBeforeName: string :=
    DocumentTop(WelcomeTitle, "#10B981", PartyIcon + " Welcome to Sponsoration!", WelcomeIntro)

  /** Lines 173-178: the two welcome paragraphs. */
  const WelcomeThanks: string :=
    "              <p style=\"margin: 0 0 " + "20px 0; color: #4B5563; font-size: " + "16px; line-height: 1.5;\">\n"
    + "                Thank you for " + "joining our community! We're " + "excited to have you on board.\n"
    + "              </p>\n"

  const WelcomeGetStarted: string :=
    "              <p style=\"margin: 0 0 " + "30px 0; color: #4B5563; font-size: " + "16px; line-height: 1.5;\">\n"
    + "                Get started by " + "completing your profile and " + "exploring the platform.\n"
    + "              </p>\n"

  /** Lines 179-181: the call-to-action area, up to the dashboard link. */
  const ButtonAreaOpen: string :=
    "\n"
    + "              <!-- CTA Button -->\n"
    + "              <div " + "style=\"text-align: center; margin: " + "30px 0;\">\n"
    + "                "

  const WelcomeMessage: string :=
    "</h2>\n"
    + WelcomeThanks + WelcomeGetStarted + ButtonAreaOpen

  /** Lines 172-182, between the name and the `%s` of the dashboard link. */
  const WelcomeBeforeDashboardLink: string :=
    "," + WelcomeMessage + HrefOpen

  const DashboardButtonOpen: string :=
    "\n"
    + "                   style=\"display: " + "inline-block; background-color: " + "#10B981; color: #ffffff; " + "text-decoration: none; padding: " + "15px 30px; border-radius: 6px; " + "font-weight: bold; font-size: " + "16px;\">\n"
    + "                  "

  const DashboardButtonClose: string :=
    "\n"
    + "                </a>\n"
    + "              </div>\n"
    + "\n"
    + "              <p style=\"margin: " + "30px 0 0 0; color: #6B7280; " + "font-size: 14px; line-height: " + "1.5;\">\n"
    + "                Best regards,<br>\n"
    + "                <strong>The " + "Sponsoration Team</strong>\n"
    + "              </p>\n"
    + "            </td>\n"
    + "          </tr>\n"
    + "\n"

  const DashboardButton: string :=
    DashboardButtonOpen + DashboardLabel + DashboardButtonClose

  const WelcomeFooterOpen: string :=
    "          <!-- Footer -->\n"
    + "          <tr>\n"
    + "            <td " + "style=\"background-color: #F9FAFB; " + "padding: 30px 40px; text-align: " + "center; border-top: 1px solid " + "#E5E7EB;\">\n"
    + "              <p style=\"margin: 0 0 " + "10px 0; color: #9CA3AF; font-size: " + "12px;\">\n"
    + "                " + CopyrightSign

  /** Lines 182-199, between the dashboard link and the `%d` that takes the year. */
  const WelcomeBeforeYear: string :=
    "\"" + DashboardButton + WelcomeFooterOpen

  const FooterLinksLead: string :=
    "\n"
    + "              </p>\n"
    + "              <p style=\"margin: 0; " + "color: #9CA3AF; font-size: 12px;\">\n"
    + "                "

  /** Lines 199-202, between the year and the `%s` of the privacy-policy link. */
  const WelcomeBeforePolicyLink: string :=
    RightsReserved + FooterLinksLead + HrefOpen

  const PolicyLinkText: string :=
    "\" style=\"color: #6B7280; " + "text-decoration: none;\">Privacy " + "Policy</a> \U{2022}\n"
    + "                "

  /** Lines 202-203, between the two footer links. */
  const WelcomeBeforeTermsLink: string :=
    PolicyPath + PolicyLinkText + HrefOpen

  const TermsLinkText: string :=
    "\" style=\"color: #6B7280; " + "text-decoration: none;\">Terms of " + "Service</a>\n"
    + "              </p>\n"
    + "            </td>\n"
    + "          </tr>\n"

  /** Lines 203-213, after the `%s` of the terms link. */
  const WelcomeAfterTermsLink: string :=
    TermsPath + TermsLinkText + DocumentClosing


  // ---------------------------------------------------------------------------
  // A well-formed HTML document
  // ---------------------------------------------------------------------------

  /** The document opens as the template tests demand: it starts with the
      doctype right after a newline and declares the html element, the head
      with its character set and viewport, the body and a table. */
  ghost predicate OpensDocument(s: string) {
    HasPrefix(s, DocType)
    && Contains(s, HtmlOpenTag) && Contains(s, HeadOpenTag)
    && Contains(s, CharsetAttribute) && Contains(s, ViewportMeta)
    && Contains(s, HeadCloseTag) && Contains(s, BodyTagStart) && Contains(s, TableTagStart)
  }

  /** The document closes its table and body and, white space aside, ends
      with `</html>`. */
  ghost predicate ClosesDocument(s: string) {
    HasSuffix(TrimRightSpace(s), HtmlClose)
    && Contains(s, TableCloseTag) && Contains(s, BodyCloseTag) && Contains(s, HtmlClose)
  }

  ghost predicate IsHtmlDocument(s: string) {
    OpensDocument(s) && ClosesDocument(s)
  }

  /** Whatever is put in place of the verbs, a format that opens with the top
      of a document and closes with its end prints a complete document. */
  lemma FramedSprintf(pieces: seq<string>, args: seq<string>)
    requires WellFormed(pieces, args)
    requires OpensDocument(pieces[0]) && ClosesDocument(pieces[|pieces| - 1])
    ensures IsHtmlDocument(Sprintf(pieces, args))
  {
    var html := Sprintf(pieces, args);
    var first, last := pieces[0], pieces[|pieces| - 1];
    SprintfStartsWith(pieces, args);
    OccursAtNested(html, first, 0, DocType, 0);
    SprintfContainsPiece(pieces, args, 0);
    SprintfContainsPiece(pieces, args, |pieces| - 1);
    ContainsNested(html, first, HtmlOpenTag);
    ContainsNested(html, first, HeadOpenTag);
    ContainsNested(html, first, CharsetAttribute);
    ContainsNested(html, first, ViewportMeta);
    ContainsNested(html, first, HeadCloseTag);
    ContainsNested(html, first, BodyTagStart);
    ContainsNested(html, first, TableTagStart);
    ContainsNested(html, last, TableCloseTag);
    ContainsNested(html, last, BodyCloseTag);
    ContainsNested(html, last, HtmlClose);
    SprintfEndsWith(pieces, args, HtmlClose);
  }

  /** The head declares the html element, the head, the character set and
      the viewport, and closes the head. */
  lemma HeadStartDeclaresHead()
    ensures Contains(HeadStart, HtmlOpenTag) && Contains(HeadStart, HeadOpenTag)
    ensures Contains(HeadStart, CharsetAttribute) && Contains(HeadStart, ViewportMeta)
    ensures Contains(HeadEnd, HeadCloseTag)
  {
    OccursSelf(HtmlOpenTag);
    ContainsWithin("\n", HtmlOpenTag, "\n", HtmlOpenTag);
    var s := "\n" + HtmlOpenTag + "\n";
    s := AppendKeepsContains(s, HeadOpenTag, HtmlOpenTag);
    s := AppendKeepsContains(s, "\n", HtmlOpenTag);
    s := AppendKeepsContains(s, "  <meta ", HtmlOpenTag);
    s := AppendKeepsContains(s, CharsetAttribute, HtmlOpenTag);
    s := AppendKeepsContains(s, ">\n", HtmlOpenTag);
    s := AppendKeepsContains(s, "  ", HtmlOpenTag);
    s := AppendKeepsContains(s, ViewportMeta, HtmlOpenTag);
    s := AppendKeepsContains(s, " content=\"width=device-width, ", HtmlOpenTag);
    s := AppendKeepsContains(s, "initial-scale=1.0\">\n", HtmlOpenTag);
    s := AppendKeepsContains(s, "  <title>", HtmlOpenTag);
    OccursSelf(HeadOpenTag);
    ContainsWithin("\n" + HtmlOpenTag + "\n", HeadOpenTag, "\n", HeadOpenTag);
    s := "\n" + HtmlOpenTag + "\n" + HeadOpenTag + "\n";
    s := AppendKeepsContains(s, "  <meta ", HeadOpenTag);
    s := AppendKeepsContains(s, CharsetAttribute, HeadOpenTag);
    s := AppendKeepsContains(s, ">\n", HeadOpenTag);
    s := AppendKeepsContains(s, "  ", HeadOpenTag);
    s := AppendKeepsContains(s, ViewportMeta, HeadOpenTag);
    s := AppendKeepsContains(s, " content=\"width=device-width, ", HeadOpenTag);
    s := AppendKeepsContains(s, "initial-scale=1.0\">\n", HeadOpenTag);
    s := AppendKeepsContains(s, "  <title>", HeadOpenTag);
    OccursSelf(CharsetAttribute);
    ContainsWithin("\n" + HtmlOpenTag + "\n" + HeadOpenTag + "\n" + "  <meta ", CharsetAttribute, ">\n", CharsetAttribute);
    s := "\n" + HtmlOpenTag + "\n" + HeadOpenTag + "\n" + "  <meta " + CharsetAttribute + ">\n";
    s := AppendKeepsContains(s, "  ", CharsetAttribute);
    s := AppendKeepsContains(s, ViewportMeta, CharsetAttribute);
    s := AppendKeepsContains(s, " content=\"width=device-width, ", CharsetAttribute);
    s := AppendKeepsContains(s, "initial-scale=1.0\">\n", CharsetAttribute);
    s := AppendKeepsContains(s, "  <title>", CharsetAttribute);
    OccursSelf(ViewportMeta);
    ContainsWithin("\n" + HtmlOpenTag + "\n" + HeadOpenTag + "\n" + "  <meta " + CharsetAttribute + ">\n" + "  ", ViewportMeta, " content=\"width=device-width, ", ViewportMeta);
    s := "\n" + HtmlOpenTag + "\n" + HeadOpenTag + "\n" + "  <meta " + CharsetAttribute + ">\n" + "  " + ViewportMeta + " content=\"width=device-width, ";
    s := AppendKeepsContains(s, "initial-scale=1.0\">\n", ViewportMeta);
    s := AppendKeepsContains(s, "  <title>", ViewportMeta);
    OccursSelf(HeadCloseTag);
    ContainsWithin("</title>\n", HeadCloseTag, "\n", HeadCloseTag);
  }

  /** The body opens with its layout tables. */
  lemma BodyOpenOpensBody()
    ensures Contains(BodyOpen, BodyTagStart) && Contains(BodyOpen, TableTagStart)
  {
    OccursSelf(BodyTagStart);
    var s := BodyTagStart;
    s := AppendKeepsContains(s, " style=\"margin: 0; padding: 0; ", BodyTagStart);
    s := AppendKeepsContains(s, "font-family: Arial, sans-serif; ", BodyTagStart);
    s := AppendKeepsContains(s, "background-color: #f4f4f4;\">\n", BodyTagStart);
    s := BodyStart;
    s := AppendKeepsContains(s, OuterTableOpen, BodyTagStart);
    s := AppendKeepsContains(s, CardTableOpen, BodyTagStart);
    OccursSelf(TableTagStart);
    ContainsWithin("  ", TableTagStart, " width=\"100%\" cellpadding=\"0\" ", TableTagStart);
    s := "  " + TableTagStart + " width=\"100%\" cellpadding=\"0\" ";
    s := AppendKeepsContains(s, "cellspacing=\"0\" ", TableTagStart);
    s := AppendKeepsContains(s, "style=\"background-color: #f4f4f4; ", TableTagStart);
    s := AppendKeepsContains(s, "padding: 20px;\">\n", TableTagStart);
    s := AppendKeepsContains(s, "    <tr>\n", TableTagStart);
    s := AppendKeepsContains(s, "      <td align=\"center\">\n", TableTagStart);
    ContainsWithin(BodyStart, OuterTableOpen, CardTableOpen, TableTagStart);
  }

  /** The head, whatever its title, starts with the doctype and holds every
      declaration the head must make. */
  lemma DocumentHeadOpensDocument(title: string)
    ensures HasPrefix(DocumentHead(title), DocType)
    ensures Contains(DocumentHead(title), HtmlOpenTag) && Contains(DocumentHead(title), HeadOpenTag)
    ensures Contains(DocumentHead(title), CharsetAttribute) && Contains(DocumentHead(title), ViewportMeta)
    ensures Contains(DocumentHead(title), HeadCloseTag)
  {
    HeadStartDeclaresHead();
    PrefixOfAppend(DocType, HeadStart);
    var s := DocType + HeadStart;
    s := AppendKeepsPrefix(s, title, DocType);
    s := AppendKeepsPrefix(s, HeadEnd, DocType);
    ContainsWithin(DocType, HeadStart, title, HtmlOpenTag);
    ContainsLeft(DocType + HeadStart + title, HeadEnd, HtmlOpenTag);
    ContainsWithin(DocType, HeadStart, title, HeadOpenTag);
    ContainsLeft(DocType + HeadStart + title, HeadEnd, HeadOpenTag);
    ContainsWithin(DocType, HeadStart, title, CharsetAttribute);
    ContainsLeft(DocType + HeadStart + title, HeadEnd, CharsetAttribute);
    ContainsWithin(DocType, HeadStart, title, ViewportMeta);
    ContainsLeft(DocType + HeadStart + title, HeadEnd, ViewportMeta);
    ContainsRight(DocType + HeadStart + title, HeadEnd, HeadCloseTag);
  }

  /** The top of a template starts with its head and holds the opening of
      the body. */
  lemma DocumentTopHoldsHeadAndBody(title: string, color: string, heading: string, intro: string)
    ensures HasPrefix(DocumentTop(title, color, heading, intro), DocumentHead(title))
    ensures Contains(DocumentTop(title, color, heading, intro), BodyOpen)
  {
    PrefixOfAppend(DocumentHead(title), BodyOpen);
    var s := DocumentHead(title) + BodyOpen;
    s := AppendKeepsPrefix(s, HeaderBand(color, heading), DocumentHead(title));
    s := AppendKeepsPrefix(s, ContentOpen, DocumentHead(title));
    s := AppendKeepsPrefix(s, intro, DocumentHead(title));
    InfixOccurs(DocumentHead(title), BodyOpen, HeaderBand(color, heading));
    OccursAtExtends(DocumentHead(title) + BodyOpen + HeaderBand(color, heading), ContentOpen, BodyOpen, |DocumentHead(title)|);
    OccursAtExtends(DocumentHead(title) + BodyOpen + HeaderBand(color, heading) + ContentOpen, intro, BodyOpen, |DocumentHead(title)|);
  }

  /** A text that starts with a complete head and holds the opening of the
      body opens the document. */
  lemma OpensDocumentByParts(top: string, head: string, body: string)
    requires HasPrefix(top, head) && Contains(top, body)
    requires HasPrefix(head, DocType)
    requires Contains(head, HtmlOpenTag) && Contains(head, HeadOpenTag)
    requires Contains(head, CharsetAttribute) && Contains(head, ViewportMeta) && Contains(head, HeadCloseTag)
    requires Contains(body, BodyTagStart) && Contains(body, TableTagStart)
    ensures OpensDocument(top)
  {
    OccursAtNested(top, head, 0, DocType, 0);
    ContainsNested(top, head, HtmlOpenTag);
    ContainsNested(top, head, HeadOpenTag);
    ContainsNested(top, head, CharsetAttribute);
    ContainsNested(top, head, ViewportMeta);
    ContainsNested(top, head, HeadCloseTag);
    ContainsNested(top, body, BodyTagStart);
    ContainsNested(top, body, TableTagStart);
  }

  /** The top of every template opens the document. */
  lemma DocumentTopOpensDocument(title: string, color: string, heading: string, intro: string)
    ensures OpensDocument(DocumentTop(title, color, heading, intro))
  {
    DocumentHeadOpensDocument(title);
    BodyOpenOpensBody();
    DocumentTopHoldsHeadAndBody(title, color, heading, intro);
    OpensDocumentByParts(DocumentTop(title, color, heading, intro), DocumentHead(title), BodyOpen);
  }

  /** The end of every template closes the document. */
  lemma DocumentClosingClosesDocument(x: string)
    ensures ClosesDocument(x + DocumentClosing)
  {
    var tags := TableClose + HtmlClose;
    assert tags[|tags| - 1] == '>';
    TrimRightSpaceDropsSpace(tags, TrailingSpace);
    TrimRightSpaceKeepsLeft(x, DocumentClosing);
    SuffixOfAppend(TableClose, HtmlClose);
    SuffixExtends(x, tags, HtmlClose);
    OccursSelf(TableCloseTag);
    ContainsWithin("        ", TableCloseTag, "\n", TableCloseTag);
    var s := "        " + TableCloseTag + "\n";
    s := AppendKeepsContains(s, "      </td>\n", TableCloseTag);
    s := AppendKeepsContains(s, "    </tr>\n", TableCloseTag);
    s := AppendKeepsContains(s, "  ", TableCloseTag);
    s := AppendKeepsContains(s, TableCloseTag, TableCloseTag);
    s := AppendKeepsContains(s, "\n", TableCloseTag);
    s := AppendKeepsContains(s, BodyCloseTag, TableCloseTag);
    s := AppendKeepsContains(s, "\n", TableCloseTag);
    s := TableClose;
    s := AppendKeepsContains(s, HtmlClose, TableCloseTag);
    s := AppendKeepsContains(s, TrailingSpace, TableCloseTag);
    OccursSelf(BodyCloseTag);
    ContainsWithin("        " + TableCloseTag + "\n" + "      </td>\n" + "    </tr>\n" + "  " + TableCloseTag + "\n", BodyCloseTag, "\n", BodyCloseTag);
    s := TableClose;
    s := AppendKeepsContains(s, HtmlClose, BodyCloseTag);
    s := AppendKeepsContains(s, TrailingSpace, BodyCloseTag);
    OccursSelf(HtmlClose);
    ContainsWithin(TableClose, HtmlClose, TrailingSpace, HtmlClose);
    ContainsRight(x, DocumentClosing, TableCloseTag);
    ContainsRight(x, DocumentClosing, BodyCloseTag);
    ContainsRight(x, DocumentClosing, HtmlClose);
  }

  // ---------------------------------------------------------------------------
  // The rendered emails
  // ---------------------------------------------------------------------------

  /** The footer line of every template: `© %d Sponsoration. All rights
      reserved.` with the year printed in place of the verb. */
  function CopyrightNotice(year: int): string
  {
    CopyrightSign + Decimal(year) + RightsReserved
  }

  /** The verification template cut at its two verbs (lines 11-69). */
  const VerificationFormat: seq<string> := [VerificationBeforeCode, VerificationBeforeYear, FooterAfterYear]

  /** The password-reset template cut at its three verbs (lines 75-143). */
  const ResetFormat: seq<string> := [ResetBeforeGreeting, ResetBetweenGreetingAndCode, ResetBeforeYear, FooterAfterYear]

  /** The welcome template cut at its five verbs (lines 149-213). */
  const WelcomeFormat: seq<string> :=
    [WelcomeBeforeName, WelcomeBeforeDashboardLink, WelcomeBeforeYear,
     WelcomeBeforePolicyLink, WelcomeBeforeTermsLink, WelcomeAfterTermsLink]

  /** The end of the footer, shared by the verification and reset templates,
      closes the document. */
  lemma FooterAfterYearClosesDocument()
    ensures ClosesDocument(FooterAfterYear)
  {
    DocumentClosingClosesDocument(RightsReserved + FooterClose);
  }

  // ---------------------------------------------------------------------------
  // Which words an email contains
  // ---------------------------------------------------------------------------

  /** The characters that border the inserted values in the three templates:
      white space, the quote of an `href`, the comma after the name and the
      slash of a link path. */
  const Separators: string := " \n\",/"

  predicate IsLetter(c: char) {
    'a' <= c <= 'z' || 'A' <= c <= 'Z'
  }

  /** A word the template tests search for ("Password", "Welcome", "Verify",
      "Reset", "code"): it holds a letter and none of the separators. */
  predicate IsKeyword(p: string) {
    (forall k :: 0 <= k < |p| ==> p[k] !in Separators)
    && (exists k :: 0 <= k < |p| && IsLetter(p[k]))
  }

  /** A printed year never contains a keyword. */
  lemma YearHoldsNoKeyword(year: int, p: string)
    requires IsKeyword(p)
    ensures !Contains(Decimal(year), p)
  {
    var j :| 0 <= j < |p| && IsLetter(p[j]);
    DecimalContainsOnlyNumerals(year, p, p[j]);
  }

  // ---------------------------------------------------------------------------
  // The verification email
  // ---------------------------------------------------------------------------

  lemma VerificationBeforeCodeShowsHeading()
    ensures Contains(VerificationBeforeCode, VerifyHeading)
  {
    OccursSelf(VerifyHeading);
    ContainsWithin(SubheadingOpen, VerifyHeading, VerificationPrompt, VerifyHeading);
    ContainsRight(DocumentHead(VerifyTitle) + BodyOpen + HeaderBand("#4F46E5", BrandName) + ContentOpen, VerificationIntro, VerifyHeading);
  }
  lemma VerificationBeforeCodeShowsBrand()
    ensures Contains(VerificationBeforeCode, BrandName)
  {
    OccursSelf(BrandName);
    ContainsWithin(HeaderBandOpen("#4F46E5"), BrandName, HeaderBandClose, BrandName);
    ContainsWithin(DocumentHead(VerifyTitle) + BodyOpen, HeaderBand("#4F46E5", BrandName), ContentOpen, BrandName);
    ContainsLeft(DocumentHead(VerifyTitle) + BodyOpen + HeaderBand("#4F46E5", BrandName) + ContentOpen, VerificationIntro, BrandName);
  }
  lemma VerificationBeforeYearShowsExpiry()
    ensures Contains(VerificationBeforeYear, ExpiryNotice)
  {
    OccursSelf(ExpiryNotice);
    ContainsWithin(ExpiryLead, ExpiryNotice, ExpiryTail, ExpiryNotice);
    var s := ExpiryParagraph;
    s := AppendKeepsContains(s, VerificationDisclaimer, ExpiryNotice);
    s := AppendKeepsContains(s, FooterOpen, ExpiryNotice);
  }
  lemma VerificationBeforeCodeEndsWithSpace()
    ensures HasSuffix(VerificationBeforeCode, " ")
  {
    assert HasSuffix("                  ", " ");
    SuffixExtends("                <div " + "style=\"font-size: 32px; " + "font-weight: bold; letter-spacing: " + "8px; color: #4F46E5; font-family: " + "'Courier New', monospace;\">\n", "                  ", " ");
    SuffixExtends("</h2>\n" + VerificationThanks + VerificationCodeBoxOpen, VerificationCodeStyle, " ");
    SuffixExtends(SubheadingOpen + VerifyHeading, VerificationPrompt, " ");
    SuffixExtends(DocumentHead(VerifyTitle) + BodyOpen + HeaderBand("#4F46E5", BrandName) + ContentOpen, VerificationIntro, " ");
  }
  lemma VerificationBeforeYearStartsWithNewline()
    ensures HasPrefix(VerificationBeforeYear, "\n")
  {
    PrefixOfAppend("\n", "                </div>\n");
    var s := "\n" + "                </div>\n";
    s := AppendKeepsPrefix(s, "              </div>\n", "\n");
    s := AppendKeepsPrefix(s, "\n", "\n");
    s := AppendKeepsPrefix(s, "              <p style=\"margin: ", "\n");
    s := AppendKeepsPrefix(s, "20px 0 0 0; color: #6B7280; ", "\n");
    s := AppendKeepsPrefix(s, "font-size: 14px; line-height: ", "\n");
    s := AppendKeepsPrefix(s, "1.5;\">\n", "\n");
    s := AppendKeepsPrefix(s, "                This code will ", "\n");
    s := AppendKeepsPrefix(s, "expire in <strong>", "\n");
    s := ExpiryLead;
    s := AppendKeepsPrefix(s, ExpiryNotice, "\n");
    s := AppendKeepsPrefix(s, ExpiryTail, "\n");
    s := ExpiryParagraph;
    s := AppendKeepsPrefix(s, VerificationDisclaimer, "\n");
    s := AppendKeepsPrefix(s, FooterOpen, "\n");
  }
  lemma VerificationBeforeYearEndsWithCopyright()
    ensures HasSuffix(VerificationBeforeYear, CopyrightSign)
  {
    SuffixOfAppend("          <!-- Footer -->\n" + "          <tr>\n" + "            <td " + "style=\"background-color: #F9FAFB; " + "padding: 30px 40px; text-align: " + "center; border-top: 1px solid " + "#E5E7EB;\">\n" + "              <p style=\"margin: 0; " + "color: #9CA3AF; font-size: 12px;\">\n" + "                ", CopyrightSign);
    SuffixExtends(ExpiryParagraph + VerificationDisclaimer, FooterOpen, CopyrightSign);
  }
  lemma FooterAfterYearStartsWithRights()
    ensures HasPrefix(FooterAfterYear, RightsReserved)
  {
    PrefixOfAppend(RightsReserved, FooterClose);
    PrefixExtends(RightsReserved + FooterClose, DocumentClosing, RightsReserved);
  }

  /** What the three pieces of the verification template hold: the top and
      the end of a document, the phrases of the email, and a separator on
      both sides of each verb. */
  ghost predicate VerificationPieces(a: string, b: string, c: string) {
    OpensDocument(a) && ClosesDocument(c)
    && Contains(a, VerifyHeading) && Contains(a, BrandName) && Contains(b, ExpiryNotice)
    && HasSuffix(a, " ") && HasPrefix(b, "\n")
    && HasSuffix(b, CopyrightSign) && HasPrefix(c, RightsReserved)
  }

  lemma VerificationPiecesHold()
    ensures VerificationPieces(VerificationBeforeCode, VerificationBeforeYear, FooterAfterYear)
  {
    DocumentTopOpensDocument(VerifyTitle, "#4F46E5", BrandName, VerificationIntro);
    FooterAfterYearClosesDocument();
    VerificationBeforeCodeShowsHeading();
    VerificationBeforeCodeShowsBrand();
    VerificationBeforeYearShowsExpiry();
    VerificationBeforeCodeEndsWithSpace();
    VerificationBeforeYearStartsWithNewline();
    VerificationBeforeYearEndsWithCopyright();
    FooterAfterYearStartsWithRights();
  }

  /** Whatever code and year three such pieces print: a complete document
      that holds the code right after the first piece, the phrases, and the
      copyright line with the year. */
  lemma VerificationLayout(a: string, b: string, c: string, code: string, yearText: string)
    requires VerificationPieces(a, b, c)
    ensures IsHtmlDocument(Sprintf([a, b, c], [code, yearText]))
    ensures HasPrefix(Sprintf([a, b, c], [code, yearText]), a + code + b)
    ensures Contains(Sprintf([a, b, c], [code, yearText]), VerifyHeading)
    ensures Contains(Sprintf([a, b, c], [code, yearText]), ExpiryNotice)
    ensures Contains(Sprintf([a, b, c], [code, yearText]), BrandName)
    ensures Contains(Sprintf([a, b, c], [code, yearText]), CopyrightSign + yearText + RightsReserved)
  {
    var pieces, args := [a, b, c], [code, yearText];
    var html := Sprintf(pieces, args);
    FramedSprintf(pieces, args);
    SprintfStartsWithFirstArg(pieces, args);
    SprintfContainsPiece(pieces, args, 0);
    SprintfContainsPiece(pieces, args, 1);
    ContainsNested(html, a, VerifyHeading);
    ContainsNested(html, a, BrandName);
    ContainsNested(html, b, ExpiryNotice);
    SprintfArgInContext(pieces, args, 1, CopyrightSign, RightsReserved);
  }

  /** In three such pieces a keyword that the year does not hold occurs in
      the output exactly when it occurs in the code or in a piece. */
  lemma VerificationKeywords(a: string, b: string, c: string, code: string, yearText: string, p: string)
    requires VerificationPieces(a, b, c) && IsKeyword(p) && !Contains(yearText, p)
    ensures Contains(Sprintf([a, b, c], [code, yearText]), p) <==> Contains(code, p) || SomeContains([a, b, c], p)
  {
    var pieces, args := [a, b, c], [code, yearText];
    LastOfSuffix(a, " ");
    FirstOfPrefix(b, "\n");
    LastOfSuffix(b, CopyrightSign);
    FirstOfPrefix(c, RightsReserved);
    BorderedSeparates(pieces, Separators, p);
    SprintfContainsIff(pieces, args, p);
    if SomeContains(args, p) {
      var k :| 0 <= k < |args| && Contains(args[k], p);
    }
    if Contains(code, p) {
      assert Contains(args[0], p);
    }
  }

  /** `getVerificationEmailTemplate(code)` in the year `year`: a complete
      HTML document. */
  function VerificationEmail(code: string, year: int): (html: string)
    ensures IsHtmlDocument(html)
  {
    VerificationPiecesHold();
    VerificationLayout(VerificationBeforeCode, VerificationBeforeYear, FooterAfterYear, code, Decimal(year));
    Sprintf(VerificationFormat, [code, Decimal(year)])
  }

  /** The code is printed verbatim in the code box, right after the text
      before the first verb, and the footer holds the copyright line of the
      year. */
  lemma VerificationEmailShowsCode(code: string, year: int)
    ensures HasPrefix(VerificationEmail(code, year), VerificationBeforeCode + code + VerificationBeforeYear)
    ensures Contains(VerificationEmail(code, year), CopyrightNotice(year))
  {
    VerificationPiecesHold();
    VerificationLayout(VerificationBeforeCode, VerificationBeforeYear, FooterAfterYear, code, Decimal(year));
  }

  /** The phrases the verification test expects: the heading, the 24-hour
      expiry and the brand. */
  lemma VerificationEmailMentions(code: string, year: int)
    ensures Contains(VerificationEmail(code, year), VerifyHeading)
    ensures Contains(VerificationEmail(code, year), ExpiryNotice)
    ensures Contains(VerificationEmail(code, year), BrandName)
  {
    VerificationPiecesHold();
    VerificationLayout(VerificationBeforeCode, VerificationBeforeYear, FooterAfterYear, code, Decimal(year));
  }

  /** Printed with any year text that does not hold it, a keyword occurs in
      the verification format's output exactly when it occurs in the code or
      in the format's own text. */
  lemma VerificationFormatKeywords(code: string, yearText: string, p: string)
    requires IsKeyword(p) && !Contains(yearText, p)
    ensures Contains(Sprintf(VerificationFormat, [code, yearText]), p) <==> Contains(code, p) || SomeContains(VerificationFormat, p)
  {
    VerificationPiecesHold();
    VerificationKeywords(VerificationBeforeCode, VerificationBeforeYear, FooterAfterYear, code, yearText, p);
  }

  /** A keyword occurs in the verification email exactly when it occurs in the
      code or in the template's own text: printing the code and the year adds
      no other occurrence and hides none. */
  lemma VerificationEmailContains(code: string, year: int, p: string)
    requires IsKeyword(p)
    ensures Contains(VerificationEmail(code, year), p) <==> Contains(code, p) || SomeContains(VerificationFormat, p)
  {
    YearHoldsNoKeyword(year, p);
    VerificationFormatKeywords(code, Decimal(year), p);
  }

  // ---------------------------------------------------------------------------
  // The password-reset email
  // ---------------------------------------------------------------------------

  lemma ResetBeforeGreetingShowsHeading()
    ensures Contains(ResetBeforeGreeting, ResetHeading)
  {
    OccursSelf(ResetHeading);
    ContainsWithin(DocType + HeadStart, ResetHeading, HeadEnd, ResetHeading);
    var s := DocumentHead(ResetHeading);
    s := AppendKeepsContains(s, BodyOpen, ResetHeading);
    s := AppendKeepsContains(s, HeaderBand("#DC2626", (LockIcon + " Password Reset")), ResetHeading);
    s := AppendKeepsContains(s, ContentOpen, ResetHeading);
    s := AppendKeepsContains(s, ResetIntro, ResetHeading);
  }
  lemma ResetBeforeGreetingShowsLock()
    ensures Contains(ResetBeforeGreeting, LockIcon)
  {
    OccursSelf(LockIcon);
    ContainsLeft(LockIcon, " Password Reset", LockIcon);
    ContainsWithin(HeaderBandOpen("#DC2626"), (LockIcon + " Password Reset"), HeaderBandClose, LockIcon);
    ContainsWithin(DocumentHead(ResetHeading) + BodyOpen, HeaderBand("#DC2626", (LockIcon + " Password Reset")), ContentOpen, LockIcon);
    ContainsLeft(DocumentHead(ResetHeading) + BodyOpen + HeaderBand("#DC2626", (LockIcon + " Password Reset")) + ContentOpen, ResetIntro, LockIcon);
  }
  lemma ResetBeforeYearShowsExpiry()
    ensures Contains(ResetBeforeYear, ExpiryNotice)
  {
    OccursSelf(ExpiryNotice);
    ContainsWithin(ExpiryLead, ExpiryNotice, ExpiryTail, ExpiryNotice);
    var s := ExpiryParagraph;
    s := AppendKeepsContains(s, ResetDisclaimer, ExpiryNotice);
    s := AppendKeepsContains(s, SecurityNotice, ExpiryNotice);
    s := AppendKeepsContains(s, FooterOpen, ExpiryNotice);
  }
  lemma ResetBeforeYearShowsSecurityTip()
    ensures Contains(ResetBeforeYear, SecurityTip)
  {
    OccursSelf(SecurityTip);
    ContainsWithin(SecurityNoticeOpen, SecurityTip, SecurityNoticeClose, SecurityTip);
    ContainsWithin(ExpiryParagraph + ResetDisclaimer, SecurityNotice, FooterOpen, SecurityTip);
  }
  lemma ResetBeforeGreetingEndsWithSpace()
    ensures HasSuffix(ResetBeforeGreeting, " ")
  {
    assert HasSuffix("                ", " ");
    SuffixExtends("</h2>\n" + "              <p style=\"margin: 0 0 " + "20px 0; color: #4B5563; font-size: " + "16px; line-height: 1.5;\">\n", "                ", " ");
    SuffixExtends(SubheadingOpen + ResetHeading, GreetingOpen, " ");
    SuffixExtends(DocumentHead(ResetHeading) + BodyOpen + HeaderBand("#DC2626", (LockIcon + " Password Reset")) + ContentOpen, ResetIntro, " ");
  }
  lemma ResetBetweenStartsWithNewline()
    ensures HasPrefix(ResetBetweenGreetingAndCode, "\n")
  {
    PrefixOfAppend("\n", ResetInstructions);
    var s := "\n" + ResetInstructions;
    s := AppendKeepsPrefix(s, ResetCodeBoxOpen, "\n");
    s := AppendKeepsPrefix(s, ResetCodeStyle, "\n");
  }
  lemma ResetBetweenEndsWithSpace()
    ensures HasSuffix(ResetBetweenGreetingAndCode, " ")
  {
    assert HasSuffix("                  ", " ");
    SuffixExtends("                <div " + "style=\"font-size: 32px; " + "font-weight: bold; letter-spacing: " + "8px; color: #DC2626; font-family: " + "'Courier New', monospace;\">\n", "                  ", " ");
    SuffixExtends("\n" + ResetInstructions + ResetCodeBoxOpen, ResetCodeStyle, " ");
  }
  lemma ResetBeforeYearStartsWithNewline()
    ensures HasPrefix(ResetBeforeYear, "\n")
  {
    PrefixOfAppend("\n", "                </div>\n");
    var s := "\n" + "                </div>\n";
    s := AppendKeepsPrefix(s, "              </div>\n", "\n");
    s := AppendKeepsPrefix(s, "\n", "\n");
    s := AppendKeepsPrefix(s, "              <p style=\"margin: ", "\n");
    s := AppendKeepsPrefix(s, "20px 0 0 0; color: #6B7280; ", "\n");
    s := AppendKeepsPrefix(s, "font-size: 14px; line-height: ", "\n");
    s := AppendKeepsPrefix(s, "1.5;\">\n", "\n");
    s := AppendKeepsPrefix(s, "                This code will ", "\n");
    s := AppendKeepsPrefix(s, "expire in <strong>", "\n");
    s := ExpiryLead;
    s := AppendKeepsPrefix(s, ExpiryNotice, "\n");
    s := AppendKeepsPrefix(s, ExpiryTail, "\n");
    s := ExpiryParagraph;
    s := AppendKeepsPrefix(s, ResetDisclaimer, "\n");
    s := AppendKeepsPrefix(s, SecurityNotice, "\n");
    s := AppendKeepsPrefix(s, FooterOpen, "\n");
  }
  lemma ResetBeforeYearEndsWithCopyright()
    ensures HasSuffix(ResetBeforeYear, CopyrightSign)
  {
    SuffixOfAppend("          <!-- Footer -->\n" + "          <tr>\n" + "            <td " + "style=\"background-color: #F9FAFB; " + "padding: 30px 40px; text-align: " + "center; border-top: 1px solid " + "#E5E7EB;\">\n" + "              <p style=\"margin: 0; " + "color: #9CA3AF; font-size: 12px;\">\n" + "                ", CopyrightSign);
    SuffixExtends(ExpiryParagraph + ResetDisclaimer + SecurityNotice, FooterOpen, CopyrightSign);
  }

  /** What the four pieces of the password-reset template hold. */
  ghost predicate ResetPieces(a: string, b: string, c: string, d: string) {
    OpensDocument(a) && ClosesDocument(d)
    && Contains(a, ResetHeading) && Contains(a, LockIcon)
    && Contains(c, ExpiryNotice) && Contains(c, SecurityTip)
    && HasSuffix(a, " ") && HasPrefix(b, "\n") && HasSuffix(b, " ") && HasPrefix(c, "\n")
    && HasSuffix(c, CopyrightSign) && HasPrefix(d, RightsReserved)
  }

  lemma ResetPiecesHold()
    ensures ResetPieces(ResetBeforeGreeting, ResetBetweenGreetingAndCode, ResetBeforeYear, FooterAfterYear)
  {
    DocumentTopOpensDocument(ResetHeading, "#DC2626", LockIcon + " Password Reset", ResetIntro);
    FooterAfterYearClosesDocument();
    ResetBeforeGreetingShowsHeading();
    ResetBeforeGreetingShowsLock();
    ResetBeforeYearShowsExpiry();
    ResetBeforeYearShowsSecurityTip();
    ResetBeforeGreetingEndsWithSpace();
    ResetBetweenStartsWithNewline();
    ResetBetweenEndsWithSpace();
    ResetBeforeYearStartsWithNewline();
    ResetBeforeYearEndsWithCopyright();
    FooterAfterYearStartsWithRights();
  }

  /** Four such pieces print a complete document. */
  lemma ResetLayoutFramed(a: string, b: string, c: string, d: string, greeting: string, code: string, yearText: string)
    requires ResetPieces(a, b, c, d)
    ensures IsHtmlDocument(Sprintf([a, b, c, d], [greeting, code, yearText]))
  {
    FramedSprintf([a, b, c, d], [greeting, code, yearText]);
  }

  /** Four such pieces print the greeting, then the code, each right after
      the piece before its verb. */
  lemma ResetLayoutPlacesInputs(a: string, b: string, c: string, d: string, greeting: string, code: string, yearText: string)
    ensures HasPrefix(Sprintf([a, b, c, d], [greeting, code, yearText]), a + greeting + b + code + c)
    ensures OccursBefore(Sprintf([a, b, c, d], [greeting, code, yearText]), greeting, code)
  {
    var pieces, args := [a, b, c, d], [greeting, code, yearText];
    SprintfPrefix(pieces, args, 2);
    assert pieces[..3] == [a, b, c] && args[..2] == [greeting, code];
    assert [a, b, c][..2] == [a, b] && [greeting, code][..1] == [greeting];
    assert [a, b][..1] == [a] && [greeting][..0] == [];
    assert Sprintf([a, b], [greeting]) == a + greeting + b;
    assert Sprintf([a, b, c], [greeting, code]) == a + greeting + b + code + c;
    PrefixOrders(Sprintf(pieces, args), a, greeting, b, code, c);
  }

  /** Four such pieces print the phrases of the email and the copyright line
      with the year. */
  lemma ResetLayoutMentions(a: string, b: string, c: string, d: string, greeting: string, code: string, yearText: string)
    requires ResetPieces(a, b, c, d)
    ensures Contains(Sprintf([a, b, c, d], [greeting, code, yearText]), ResetHeading)
    ensures Contains(Sprintf([a, b, c, d], [greeting, code, yearText]), LockIcon)
    ensures Contains(Sprintf([a, b, c, d], [greeting, code, yearText]), ExpiryNotice)
    ensures Contains(Sprintf([a, b, c, d], [greeting, code, yearText]), SecurityTip)
    ensures Contains(Sprintf([a, b, c, d], [greeting, code, yearText]), CopyrightSign + yearText + RightsReserved)
  {
    var pieces, args := [a, b, c, d], [greeting, code, yearText];
    var html := Sprintf(pieces, args);
    SprintfContainsPiece(pieces, args, 0);
    SprintfContainsPiece(pieces, args, 2);
    ContainsNested(html, a, ResetHeading);
    ContainsNested(html, a, LockIcon);
    ContainsNested(html, c, ExpiryNotice);
    ContainsNested(html, c, SecurityTip);
    SprintfArgInContext(pieces, args, 2, CopyrightSign, RightsReserved);
  }

  /** In four such pieces a keyword that the year does not hold occurs in the
      output exactly when it occurs in the greeting, the code or a piece. */
  lemma ResetKeywords(a: string, b: string, c: string, d: string, greeting: string, code: string, yearText: string, p: string)
    requires ResetPieces(a, b, c, d) && IsKeyword(p) && !Contains(yearText, p)
    ensures Contains(Sprintf([a, b, c, d], [greeting, code, yearText]), p)
      <==> Contains(greeting, p) || Contains(code, p) || SomeContains([a, b, c, d], p)
  {
    var pieces, args := [a, b, c, d], [greeting, code, yearText];
    LastOfSuffix(a, " ");
    FirstOfPrefix(b, "\n");
    LastOfSuffix(b, " ");
    FirstOfPrefix(c, "\n");
    LastOfSuffix(c, CopyrightSign);
    FirstOfPrefix(d, RightsReserved);
    BorderedSeparates(pieces, Separators, p);
    SprintfContainsIff(pieces, args, p);
    if SomeContains(args, p) {
      var k :| 0 <= k < |args| && Contains(args[k], p);
    }
    if Contains(greeting, p) {
      assert Contains(args[0], p);
    }
    if Contains(code, p) {
      assert Contains(args[1], p);
    }
  }

  /** `getPasswordResetEmailTemplate(code, greeting)` in the year `year`: a
      complete HTML document. The format takes the greeting first and the
      code second. */
  function ResetEmail(code: string, greeting: string, year: int): (html: string)
    ensures IsHtmlDocument(html)
  {
    ResetPiecesHold();
    ResetLayoutFramed(ResetBeforeGreeting, ResetBetweenGreetingAndCode, ResetBeforeYear, FooterAfterYear, greeting, code, Decimal(year));
    Sprintf(ResetFormat, [greeting, code, Decimal(year)])
  }

  /** The greeting is printed verbatim in the first paragraph and the code
      verbatim in the code box, the greeting first. */
  lemma ResetEmailShowsInputs(code: string, greeting: string, year: int)
    ensures HasPrefix(ResetEmail(code, greeting, year),
                      ResetBeforeGreeting + greeting + ResetBetweenGreetingAndCode + code + ResetBeforeYear)
    ensures OccursBefore(ResetEmail(code, greeting, year), greeting, code)
  {
    ResetLayoutPlacesInputs(ResetBeforeGreeting, ResetBetweenGreetingAndCode, ResetBeforeYear, FooterAfterYear, greeting, code, Decimal(year));
  }

  /** The phrases the password-reset test expects, and the copyright line of
      the year. */
  lemma ResetEmailMentions(code: string, greeting: string, year: int)
    ensures Contains(ResetEmail(code, greeting, year), ResetHeading)
    ensures Contains(ResetEmail(code, greeting, year), LockIcon)
    ensures Contains(ResetEmail(code, greeting, year), ExpiryNotice)
    ensures Contains(ResetEmail(code, greeting, year), SecurityTip)
    ensures Contains(ResetEmail(code, greeting, year), CopyrightNotice(year))
  {
    ResetPiecesHold();
    ResetLayoutMentions(ResetBeforeGreeting, ResetBetweenGreetingAndCode, ResetBeforeYear, FooterAfterYear, greeting, code, Decimal(year));
  }

  /** Printed with any year text that does not hold it, a keyword occurs in
      the reset format's output exactly when it occurs in the greeting, the
      code or the format's own text. */
  lemma ResetFormatKeywords(code: string, greeting: string, yearText: string, p: string)
    requires IsKeyword(p) && !Contains(yearText, p)
    ensures Contains(Sprintf(ResetFormat, [greeting, code, yearText]), p)
      <==> Contains(greeting, p) || Contains(code, p) || SomeContains(ResetFormat, p)
  {
    ResetPiecesHold();
    ResetKeywords(ResetBeforeGreeting, ResetBetweenGreetingAndCode, ResetBeforeYear, FooterAfterYear, greeting, code, yearText, p);
  }

  /** A keyword occurs in the password-reset email exactly when it occurs in
      the greeting, the code or the template's own text. */
  lemma ResetEmailContains(code: string, greeting: string, year: int, p: string)
    requires IsKeyword(p)
    ensures Contains(ResetEmail(code, greeting, year), p)
      <==> Contains(greeting, p) || Contains(code, p) || SomeContains(ResetFormat, p)
  {
    YearHoldsNoKeyword(year, p);
    ResetFormatKeywords(code, greeting, Decimal(year), p);
  }

  // ---------------------------------------------------------------------------
  // The welcome email
  // ---------------------------------------------------------------------------

  lemma WelcomeBeforeNameShowsTitle()
    ensures Contains(WelcomeBeforeName, WelcomeTitle)
  {
    OccursSelf(WelcomeTitle);
    ContainsWithin(DocType + HeadStart, WelcomeTitle, HeadEnd, WelcomeTitle);
    var s := DocumentHead(WelcomeTitle);
    s := AppendKeepsContains(s, BodyOpen, WelcomeTitle);
    s := AppendKeepsContains(s, HeaderBand("#10B981", (PartyIcon + " Welcome to Sponsoration!")), WelcomeTitle);
    s := AppendKeepsContains(s, ContentOpen, WelcomeTitle);
    s := AppendKeepsContains(s, WelcomeIntro, WelcomeTitle);
  }
  lemma WelcomeBeforeNameShowsParty()
    ensures Contains(WelcomeBeforeName, PartyIcon)
  {
    OccursSelf(PartyIcon);
    ContainsLeft(PartyIcon, " Welcome to Sponsoration!", PartyIcon);
    ContainsWithin(HeaderBandOpen("#10B981"), (PartyIcon + " Welcome to Sponsoration!"), HeaderBandClose, PartyIcon);
    ContainsWithin(DocumentHead(WelcomeTitle) + BodyOpen, HeaderBand("#10B981", (PartyIcon + " Welcome to Sponsoration!")), ContentOpen, PartyIcon);
    ContainsLeft(DocumentHead(WelcomeTitle) + BodyOpen + HeaderBand("#10B981", (PartyIcon + " Welcome to Sponsoration!")) + ContentOpen, WelcomeIntro, PartyIcon);
  }
  lemma WelcomeBeforeYearShowsDashboard()
    ensures Contains(WelcomeBeforeYear, DashboardLabel)
  {
    OccursSelf(DashboardLabel);
    ContainsWithin(DashboardButtonOpen, DashboardLabel, DashboardButtonClose, DashboardLabel);
    ContainsWithin("\"", DashboardButton, WelcomeFooterOpen, DashboardLabel);
  }
  lemma WelcomeBeforeNameEndsWithHi()
    ensures HasSuffix(WelcomeBeforeName, HiPrefix)
  {
    SuffixOfAppend(SubheadingOpen, HiPrefix);
    SuffixExtends(DocumentHead(WelcomeTitle) + BodyOpen + HeaderBand("#10B981", (PartyIcon + " Welcome to Sponsoration!")) + ContentOpen, WelcomeIntro, HiPrefix);
  }
  lemma WelcomeBeforeDashboardLinkStartsWithComma()
    ensures HasPrefix(WelcomeBeforeDashboardLink, ",")
  {
    PrefixOfAppend(",", WelcomeMessage);
    PrefixExtends("," + WelcomeMessage, HrefOpen, ",");
  }
  lemma WelcomeBeforeDashboardLinkEndsWithHref()
    ensures HasSuffix(WelcomeBeforeDashboardLink, HrefOpen)
  {
    SuffixOfAppend("," + WelcomeMessage, HrefOpen);
  }
  lemma WelcomeBeforeYearStartsWithQuote()
    ensures HasPrefix(WelcomeBeforeYear, "\"")
  {
    PrefixOfAppend("\"", DashboardButton);
    PrefixExtends("\"" + DashboardButton, WelcomeFooterOpen, "\"");
  }
  lemma WelcomeBeforeYearEndsWithCopyright()
    ensures HasSuffix(WelcomeBeforeYear, CopyrightSign)
  {
    SuffixOfAppend("          <!-- Footer -->\n" + "          <tr>\n" + "            <td " + "style=\"background-color: #F9FAFB; " + "padding: 30px 40px; text-align: " + "center; border-top: 1px solid " + "#E5E7EB;\">\n" + "              <p style=\"margin: 0 0 " + "10px 0; color: #9CA3AF; font-size: " + "12px;\">\n" + "                ", CopyrightSign);
    SuffixExtends("\"" + DashboardButton, WelcomeFooterOpen, CopyrightSign);
  }
  lemma WelcomeBeforePolicyLinkStartsWithRights()
    ensures HasPrefix(WelcomeBeforePolicyLink, RightsReserved)
  {
    PrefixOfAppend(RightsReserved, FooterLinksLead);
    PrefixExtends(RightsReserved + FooterLinksLead, HrefOpen, RightsReserved);
  }
  lemma WelcomeBeforePolicyLinkEndsWithHref()
    ensures HasSuffix(WelcomeBeforePolicyLink, HrefOpen)
  {
    SuffixOfAppend(RightsReserved + FooterLinksLead, HrefOpen);
  }
  lemma WelcomeBeforeTermsLinkStartsWithPolicy()
    ensures HasPrefix(WelcomeBeforeTermsLink, PolicyPath)
  {
    PrefixOfAppend(PolicyPath, PolicyLinkText);
    PrefixExtends(PolicyPath + PolicyLinkText, HrefOpen, PolicyPath);
  }
  lemma WelcomeBeforeTermsLinkEndsWithHref()
    ensures HasSuffix(WelcomeBeforeTermsLink, HrefOpen)
  {
    SuffixOfAppend(PolicyPath + PolicyLinkText, HrefOpen);
  }
  lemma WelcomeAfterTermsLinkStartsWithTerms()
    ensures HasPrefix(WelcomeAfterTermsLink, TermsPath)
  {
    PrefixOfAppend(TermsPath, TermsLinkText);
    PrefixExtends(TermsPath + TermsLinkText, DocumentClosing, TermsPath);
  }

  /** What the six pieces of the welcome template hold. */
  ghost predicate WelcomePieces(a: string, b: string, c: string, d: string, e: string, f: string) {
    OpensDocument(a) && ClosesDocument(f)
    && Contains(a, WelcomeTitle) && Contains(a, PartyIcon) && Contains(c, DashboardLabel)
    && HasSuffix(a, HiPrefix) && HasPrefix(b, ",")
    && HasSuffix(b, HrefOpen) && HasPrefix(c, "\"")
    && HasSuffix(c, CopyrightSign) && HasPrefix(d, RightsReserved)
    && HasSuffix(d, HrefOpen) && HasPrefix(e, PolicyPath)
    && HasSuffix(e, HrefOpen) && HasPrefix(f, TermsPath)
  }

  lemma WelcomePiecesHold()
    ensures WelcomePieces(WelcomeBeforeName, WelcomeBeforeDashboardLink, WelcomeBeforeYear,
                          WelcomeBeforePolicyLink, WelcomeBeforeTermsLink, WelcomeAfterTermsLink)
  {
    DocumentTopOpensDocument(WelcomeTitle, "#10B981", PartyIcon + " Welcome to Sponsoration!", WelcomeIntro);
    DocumentClosingClosesDocument(TermsPath + TermsLinkText);
    WelcomeBeforeNameShowsTitle();
    WelcomeBeforeNameShowsParty();
    WelcomeBeforeYearShowsDashboard();
    WelcomeBeforeNameEndsWithHi();
    WelcomeBeforeDashboardLinkStartsWithComma();
    WelcomeBeforeDashboardLinkEndsWithHref();
    WelcomeBeforeYearStartsWithQuote();
    WelcomeBeforeYearEndsWithCopyright();
    WelcomeBeforePolicyLinkStartsWithRights();
    WelcomeBeforePolicyLinkEndsWithHref();
    WelcomeBeforeTermsLinkStartsWithPolicy();
    WelcomeBeforeTermsLinkEndsWithHref();
    WelcomeAfterTermsLinkStartsWithTerms();
  }

  /** Six such pieces print a complete document that greets the name and
      links the dashboard, the privacy policy and the terms under the URL. */
  lemma WelcomeLayoutPlacesInputs(a: string, b: string, c: string, d: string, e: string, f: string, name: string, url: string, yearText: string)
    requires WelcomePieces(a, b, c, d, e, f)
    ensures IsHtmlDocument(Sprintf([a, b, c, d, e, f], [name, url, yearText, url, url]))
    ensures Contains(Sprintf([a, b, c, d, e, f], [name, url, yearText, url, url]), HiPrefix + name + ",")
    ensures Contains(Sprintf([a, b, c, d, e, f], [name, url, yearText, url, url]), HrefOpen + url + "\"")
    ensures Contains(Sprintf([a, b, c, d, e, f], [name, url, yearText, url, url]), HrefOpen + url + PolicyPath)
    ensures Contains(Sprintf([a, b, c, d, e, f], [name, url, yearText, url, url]), HrefOpen + url + TermsPath)
  {
    var pieces, args := [a, b, c, d, e, f], [name, url, yearText, url, url];
    FramedSprintf(pieces, args);
    SprintfArgInContext(pieces, args, 0, HiPrefix, ",");
    SprintfArgInContext(pieces, args, 1, HrefOpen, "\"");
    SprintfArgInContext(pieces, args, 3, HrefOpen, PolicyPath);
    SprintfArgInContext(pieces, args, 4, HrefOpen, TermsPath);
  }

  /** Six such pieces print the phrases of the email and the copyright line
      with the year. */
  lemma WelcomeLayoutMentions(a: string, b: string, c: string, d: string, e: string, f: string, name: string, url: string, yearText: string)
    requires WelcomePieces(a, b, c, d, e, f)
    ensures Contains(Sprintf([a, b, c, d, e, f], [name, url, yearText, url, url]), WelcomeTitle)
    ensures Contains(Sprintf([a, b, c, d, e, f], [name, url, yearText, url, url]), PartyIcon)
    ensures Contains(Sprintf([a, b, c, d, e, f], [name, url, yearText, url, url]), DashboardLabel)
    ensures Contains(Sprintf([a, b, c, d, e, f], [name, url, yearText, url, url]), CopyrightSign + yearText + RightsReserved)
  {
    var pieces, args := [a, b, c, d, e, f], [name, url, yearText, url, url];
    var html := Sprintf(pieces, args);
    SprintfContainsPiece(pieces, args, 0);
    SprintfContainsPiece(pieces, args, 2);
    ContainsNested(html, a, WelcomeTitle);
    ContainsNested(html, a, PartyIcon);
    ContainsNested(html, c, DashboardLabel);
    SprintfArgInContext(pieces, args, 2, CopyrightSign, RightsReserved);
  }

  /** In six such pieces a keyword that the year does not hold occurs in the
      output exactly when it occurs in the name, the URL or a piece. */
  lemma WelcomeKeywords(a: string, b: string, c: string, d: string, e: string, f: string, name: string, url: string, yearText: string, p: string)
    requires WelcomePieces(a, b, c, d, e, f) && IsKeyword(p) && !Contains(yearText, p)
    ensures Contains(Sprintf([a, b, c, d, e, f], [name, url, yearText, url, url]), p)
      <==> Contains(name, p) || Contains(url, p) || SomeContains([a, b, c, d, e, f], p)
  {
    var pieces, args := [a, b, c, d, e, f], [name, url, yearText, url, url];
    LastOfSuffix(a, HiPrefix);
    FirstOfPrefix(b, ",");
    LastOfSuffix(b, HrefOpen);
    FirstOfPrefix(c, "\"");
    LastOfSuffix(c, CopyrightSign);
    FirstOfPrefix(d, RightsReserved);
    LastOfSuffix(d, HrefOpen);
    FirstOfPrefix(e, PolicyPath);
    LastOfSuffix(e, HrefOpen);
    FirstOfPrefix(f, TermsPath);
    BorderedSeparates(pieces, Separators, p);
    SprintfContainsIff(pieces, args, p);
    if SomeContains(args, p) {
      var k :| 0 <= k < |args| && Contains(args[k], p);
    }
    if Contains(name, p) {
      assert Contains(args[0], p);
    }
    if Contains(url, p) {
      assert Contains(args[1], p);
    }
  }

  /** `getWelcomeEmailTemplate(name, appURL)` in the year `year`: a complete
      HTML document. The format takes the name, the URL, the year and the URL
      twice more. */
  function WelcomeEmail(name: string, appURL: string, year: int): (html: string)
    ensures IsHtmlDocument(html)
  {
    WelcomePiecesHold();
    WelcomeLayoutPlacesInputs(WelcomeBeforeName, WelcomeBeforeDashboardLink, WelcomeBeforeYear,
                              WelcomeBeforePolicyLink, WelcomeBeforeTermsLink, WelcomeAfterTermsLink,
                              name, appURL, Decimal(year));
    Sprintf(WelcomeFormat, [name, appURL, Decimal(year), appURL, appURL])
  }

  /** The heading greets the name as `Hi <name>,`; the dashboard button links
      to the URL, and the footer links to the privacy policy and the terms
      under it. */
  lemma WelcomeEmailShowsInputs(name: string, appURL: string, year: int)
    ensures Contains(WelcomeEmail(name, appURL, year), HiPrefix + name + ",")
    ensures Contains(WelcomeEmail(name, appURL, year), HrefOpen + appURL + "\"")
    ensures Contains(WelcomeEmail(name, appURL, year), HrefOpen + appURL + PolicyPath)
    ensures Contains(WelcomeEmail(name, appURL, year), HrefOpen + appURL + TermsPath)
  {
    WelcomePiecesHold();
    WelcomeLayoutPlacesInputs(WelcomeBeforeName, WelcomeBeforeDashboardLink, WelcomeBeforeYear,
                              WelcomeBeforePolicyLink, WelcomeBeforeTermsLink, WelcomeAfterTermsLink,
                              name, appURL, Decimal(year));
  }

  /** The phrases the welcome test expects, and the copyright line of the
      year. */
  lemma WelcomeEmailMentions(name: string, appURL: string, year: int)
    ensures Contains(WelcomeEmail(name, appURL, year), WelcomeTitle)
    ensures Contains(WelcomeEmail(name, appURL, year), PartyIcon)
    ensures Contains(WelcomeEmail(name, appURL, year), DashboardLabel)
    ensures Contains(WelcomeEmail(name, appURL, year), CopyrightNotice(year))
  {
    WelcomePiecesHold();
    WelcomeLayoutMentions(WelcomeBeforeName, WelcomeBeforeDashboardLink, WelcomeBeforeYear,
                          WelcomeBeforePolicyLink, WelcomeBeforeTermsLink, WelcomeAfterTermsLink,
                          name, appURL, Decimal(year));
  }

  /** Printed with any year text that does not hold it, a keyword occurs in
      the welcome format's output exactly when it occurs in the name, the URL
      or the format's own text. */
  lemma WelcomeFormatKeywords(name: string, appURL: string, yearText: string, p: string)
    requires IsKeyword(p) && !Contains(yearText, p)
    ensures Contains(Sprintf(WelcomeFormat, [name, appURL, yearText, appURL, appURL]), p)
      <==> Contains(name, p) || Contains(appURL, p) || SomeContains(WelcomeFormat, p)
  {
    WelcomePiecesHold();
    WelcomeKeywords(WelcomeBeforeName, WelcomeBeforeDashboardLink, WelcomeBeforeYear,
                    WelcomeBeforePolicyLink, WelcomeBeforeTermsLink, WelcomeAfterTermsLink,
                    name, appURL, yearText, p);
  }

  /** A keyword occurs in the welcome email exactly when it occurs in the
      name, the URL or the template's own text. */
  lemma WelcomeEmailContains(name: string, appURL: string, year: int, p: string)
    requires IsKeyword(p)
    ensures Contains(WelcomeEmail(name, appURL, year), p)
      <==> Contains(name, p) || Contains(appURL, p) || SomeContains(WelcomeFormat, p)
  {
    YearHoldsNoKeyword(year, p);
    WelcomeFormatKeywords(name, appURL, Decimal(year), p);
  }
}
