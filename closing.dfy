/** Every email the service renders closes its document with exactly one
    `</html>` tag. The templates insert their arguments unescaped, so an
    argument that holds `</html>` adds another one; for arguments without it
    the only `</html>` is the template's own, right before the trailing white
    space. */
module ClosingTag {
  import opened Text
  import opened Format
  import opened EmailTemplates

  // ---------------------------------------------------------------------------
  // Where the single closing tag sits
  // ---------------------------------------------------------------------------

  /** The end of the verification and reset templates up to their `</html>`. */
  const FooterBeforeHtmlClose: string := RightsReserved + FooterClose + TableClose

  /** The end of the welcome template up to its `</html>`. */
  const WelcomeEndBeforeHtmlClose: string := TermsPath + TermsLinkText + TableClose

  /** The shared footer ends with the document's only `</html>` and the
      trailing white space. */
  lemma FooterAfterYearEndsWithHtmlClose()
    ensures FooterAfterYear == FooterBeforeHtmlClose + HtmlClose + TrailingSpace
    ensures HasPrefix(FooterBeforeHtmlClose, RightsReserved)
    ensures !Contains(FooterBeforeHtmlClose, HtmlClose)
  {
    PrefixOfAppend(RightsReserved, FooterClose + TableClose);
    AbsentCharNoContains(RightsReserved, HtmlClose, 0);
    FooterCloseShutsHtmlClose();
    TableCloseShutsHtmlClose();
    var s := RightsReserved;
    s := ShutAfter(s, FooterClose, HtmlClose);
    s := ShutAfter(s, TableClose, HtmlClose);
  }

  /** The same for the last piece of the welcome template. */
  lemma WelcomeAfterTermsLinkEndsWithHtmlClose()
    ensures WelcomeAfterTermsLink == WelcomeEndBeforeHtmlClose + HtmlClose + TrailingSpace
    ensures HasPrefix(WelcomeEndBeforeHtmlClose, TermsPath)
    ensures !Contains(WelcomeEndBeforeHtmlClose, HtmlClose)
  {
    PrefixOfAppend(TermsPath, TermsLinkText + TableClose);
    AbsentCharNoContains(TermsPath, HtmlClose, 0);
    TermsLinkTextShutsHtmlClose();
    TableCloseShutsHtmlClose();
    var s := TermsPath;
    s := ShutAfter(s, TermsLinkText, HtmlClose);
    s := ShutAfter(s, TableClose, HtmlClose);
  }

  /** `</html>` opens with a character it does not repeat, and the trailing
      white space does not hold that character. */
  lemma HtmlCloseStandsAlone()
    ensures forall k :: 0 < k < |HtmlClose| ==> HtmlClose[k] != HtmlClose[0]
    ensures forall k :: 0 <= k < |TrailingSpace| ==> TrailingSpace[k] != HtmlClose[0]
  {
  }

  /** A piece that starts with a path (a slash, then not an `h`) starts clear
      of `</html>`: no `</html>` can begin in the URL before it and end in it. */
  lemma PathStartsClear(b: string, path: string)
    requires HasPrefix(b, path) && |path| >= 2 && path[0] == '/' && path[1] != 'h'
    ensures StartsClearOf(b, HtmlClose)
  {
    OccursAtChar(b, path, 0, 0);
    OccursAtChar(b, path, 0, 1);
    forall k | 0 < k < |HtmlClose|
      ensures !HasPrefix(b, HtmlClose[k..])
    {
      if HasPrefix(b, HtmlClose[k..]) {
        if k == 1 {
          OccursAtChar(b, HtmlClose[k..], 0, 1);
        } else {
          OccursAtChar(b, HtmlClose[k..], 0, 0);
        }
      }
    }
  }

  // ---------------------------------------------------------------------------
  // The three layouts
  // ---------------------------------------------------------------------------

  /** The characters around the verbs of the three templates, none of which
      `</html>` uses. */
  const VerbBorders: string := " \n\","

  /** Three pieces laid out as the verification template, the last ending in
      `</html>` and white space, print exactly one `</html>` when nothing
      else holds one. */
  lemma VerificationLayoutClosesOnce(a: string, b: string, c: string, code: string, yearText: string)
    requires HasSuffix(a, " ") && HasPrefix(b, "\n") && HasSuffix(b, CopyrightSign) && HasPrefix(c, RightsReserved)
    requires !Contains(a, HtmlClose) && !Contains(b, HtmlClose) && !Contains(c, HtmlClose)
    requires !Contains(code, HtmlClose) && !Contains(yearText, HtmlClose)
    ensures OccursOnce(Sprintf([a, b, c + HtmlClose + TrailingSpace], [code, yearText]), HtmlClose)
  {
    var pieces, args := [a, b, c], [code, yearText];
    var full := [a, b, c + HtmlClose + TrailingSpace];
    assert c + HtmlClose + TrailingSpace == c + (HtmlClose + TrailingSpace);
    SprintfSplitLast(full, args, c, HtmlClose + TrailingSpace);
    assert full[..2] + [c] == pieces;
    LastOfSuffix(a, " ");
    FirstOfPrefix(b, "\n");
    LastOfSuffix(b, CopyrightSign);
    FirstOfPrefix(c, RightsReserved);
    BorderedSeparates(pieces, VerbBorders, HtmlClose);
    SprintfContainsIff(pieces, args, HtmlClose);
    assert !SomeContains(pieces, HtmlClose);
    assert !SomeContains(args, HtmlClose);
    assert !Contains(Sprintf(pieces, args), HtmlClose);
    HtmlCloseStandsAlone();
    OnceBeforeTail(Sprintf(pieces, args), HtmlClose, TrailingSpace);
    assert Sprintf(full, args) == Sprintf(pieces, args) + HtmlClose + TrailingSpace;
  }

  /** The same for four pieces laid out as the password-reset template. */
  lemma ResetLayoutClosesOnce(a: string, b: string, c: string, d: string, greeting: string, code: string, yearText: string)
    requires HasSuffix(a, " ") && HasPrefix(b, "\n") && HasSuffix(b, " ") && HasPrefix(c, "\n")
    requires HasSuffix(c, CopyrightSign) && HasPrefix(d, RightsReserved)
    requires !Contains(a, HtmlClose) && !Contains(b, HtmlClose) && !Contains(c, HtmlClose) && !Contains(d, HtmlClose)
    requires !Contains(greeting, HtmlClose) && !Contains(code, HtmlClose) && !Contains(yearText, HtmlClose)
    ensures OccursOnce(Sprintf([a, b, c, d + HtmlClose + TrailingSpace], [greeting, code, yearText]), HtmlClose)
  {
    var pieces, args := [a, b, c, d], [greeting, code, yearText];
    var full := [a, b, c, d + HtmlClose + TrailingSpace];
    assert d + HtmlClose + TrailingSpace == d + (HtmlClose + TrailingSpace);
    SprintfSplitLast(full, args, d, HtmlClose + TrailingSpace);
    assert full[..3] + [d] == pieces;
    LastOfSuffix(a, " ");
    FirstOfPrefix(b, "\n");
    LastOfSuffix(b, " ");
    FirstOfPrefix(c, "\n");
    LastOfSuffix(c, CopyrightSign);
    FirstOfPrefix(d, RightsReserved);
    BorderedSeparates(pieces, VerbBorders, HtmlClose);
    SprintfContainsIff(pieces, args, HtmlClose);
    assert !SomeContains(pieces, HtmlClose);
    assert !SomeContains(args, HtmlClose);
    assert !Contains(Sprintf(pieces, args), HtmlClose);
    HtmlCloseStandsAlone();
    OnceBeforeTail(Sprintf(pieces, args), HtmlClose, TrailingSpace);
    assert Sprintf(full, args) == Sprintf(pieces, args) + HtmlClose + TrailingSpace;
  }

  /** The welcome format printed as its first three verbs and then the last
      two, each a URL followed by a piece. */
  lemma WelcomeSprintfUnfolds(a: string, b: string, c: string, d: string, e: string, f: string,
                              name: string, url: string, yearText: string)
    ensures Sprintf([a, b, c, d, e, f], [name, url, yearText, url, url])
         == Sprintf([a, b, c, d], [name, url, yearText]) + url + e + url + f
  {
    var pieces, args := [a, b, c, d, e, f], [name, url, yearText, url, url];
    assert pieces[..5] == [a, b, c, d, e] && args[..4] == [name, url, yearText, url];
    assert [a, b, c, d, e][..4] == [a, b, c, d] && args[..4][..3] == [name, url, yearText];
  }

  /** Up to its fourth piece the welcome layout is bordered like the other
      two: no `</html>` there, and the last character is the quote of `href="`. */
  lemma WelcomeFrontLacksHtmlClose(a: string, b: string, c: string, d: string, name: string, url: string, yearText: string)
    requires HasSuffix(a, HiPrefix) && HasPrefix(b, ",") && HasSuffix(b, HrefOpen) && HasPrefix(c, "\"")
    requires HasSuffix(c, CopyrightSign) && HasPrefix(d, RightsReserved) && HasSuffix(d, HrefOpen)
    requires !Contains(a, HtmlClose) && !Contains(b, HtmlClose) && !Contains(c, HtmlClose) && !Contains(d, HtmlClose)
    requires !Contains(name, HtmlClose) && !Contains(url, HtmlClose) && !Contains(yearText, HtmlClose)
    ensures !Contains(Sprintf([a, b, c, d], [name, url, yearText]), HtmlClose)
    ensures HasSuffix(Sprintf([a, b, c, d], [name, url, yearText]), "\"")
  {
    var pieces, args := [a, b, c, d], [name, url, yearText];
    LastOfSuffix(a, HiPrefix);
    FirstOfPrefix(b, ",");
    LastOfSuffix(b, HrefOpen);
    FirstOfPrefix(c, "\"");
    LastOfSuffix(c, CopyrightSign);
    FirstOfPrefix(d, RightsReserved);
    LastOfSuffix(d, HrefOpen);
    BorderedSeparates(pieces, VerbBorders, HtmlClose);
    SprintfContainsIff(pieces, args, HtmlClose);
    assert !SomeContains(pieces, HtmlClose);
    assert !SomeContains(args, HtmlClose);
    SprintfLastChar(pieces, args);
    var s := Sprintf(pieces, args);
    assert s[|s| - 1..] == "\"";
  }

  /** The same for six pieces laid out as the welcome template. The URL is
      followed twice by a path that starts with a slash, a character of
      `</html>`, so those two seams are cleared by the path's second
      character. */
  lemma WelcomeLayoutClosesOnce(a: string, b: string, c: string, d: string, e: string, f: string,
                                name: string, url: string, yearText: string)
    requires HasSuffix(a, HiPrefix) && HasPrefix(b, ",") && HasSuffix(b, HrefOpen) && HasPrefix(c, "\"")
    requires HasSuffix(c, CopyrightSign) && HasPrefix(d, RightsReserved) && HasSuffix(d, HrefOpen)
    requires HasPrefix(e, PolicyPath) && HasSuffix(e, HrefOpen) && HasPrefix(f, TermsPath)
    requires !Contains(a, HtmlClose) && !Contains(b, HtmlClose) && !Contains(c, HtmlClose)
    requires !Contains(d, HtmlClose) && !Contains(e, HtmlClose) && !Contains(f, HtmlClose)
    requires !Contains(name, HtmlClose) && !Contains(url, HtmlClose) && !Contains(yearText, HtmlClose)
    ensures OccursOnce(Sprintf([a, b, c, d, e, f + HtmlClose + TrailingSpace], [name, url, yearText, url, url]), HtmlClose)
  {
    var args := [name, url, yearText, url, url];
    var full := [a, b, c, d, e, f + HtmlClose + TrailingSpace];
    var pieces := [a, b, c, d, e, f];
    assert f + HtmlClose + TrailingSpace == f + (HtmlClose + TrailingSpace);
    SprintfSplitLast(full, args, f, HtmlClose + TrailingSpace);
    assert full[..5] + [f] == pieces;
    WelcomeSprintfUnfolds(a, b, c, d, e, f, name, url, yearText);
    WelcomeFrontLacksHtmlClose(a, b, c, d, name, url, yearText);
    var front := Sprintf([a, b, c, d], [name, url, yearText]);
    LastOfSuffix(front, "\"");
    LastOfSuffix(e, HrefOpen);
    PathStartsClear(e, PolicyPath);
    PathStartsClear(f, TermsPath);
    ContainsAppendIff(front, url, HtmlClose);
    ContainsAppendClearIff(front + url, e, HtmlClose);
    var left := front + url + e;
    assert left[|left| - 1] == e[|e| - 1];
    ContainsAppendIff(left, url, HtmlClose);
    ContainsAppendClearIff(left + url, f, HtmlClose);
    assert !Contains(left + url + f, HtmlClose);
    HtmlCloseStandsAlone();
    OnceBeforeTail(left + url + f, HtmlClose, TrailingSpace);
    assert Sprintf(full, args) == left + url + f + HtmlClose + TrailingSpace;
  }

  // ---------------------------------------------------------------------------
  // The three emails
  // ---------------------------------------------------------------------------

  /** A year printed in decimal holds no `</html>`. */
  lemma YearLacksHtmlClose(year: int)
    ensures !Contains(Decimal(year), HtmlClose)
  {
    DecimalContainsOnlyNumerals(year, HtmlClose, '<');
  }

  /** The verification template cut before its own `</html>`: three pieces
      laid out for `VerificationLayoutClosesOnce`. */
  lemma VerificationFormatSplitsAtHtmlClose() returns (a: string, b: string, c: string)
    ensures VerificationFormat == [a, b, c + HtmlClose + TrailingSpace]
    ensures HasSuffix(a, " ") && HasPrefix(b, "\n") && HasSuffix(b, CopyrightSign) && HasPrefix(c, RightsReserved)
    ensures !Contains(a, HtmlClose) && !Contains(b, HtmlClose) && !Contains(c, HtmlClose)
  {
    a, b, c := VerificationBeforeCode, VerificationBeforeYear, FooterBeforeHtmlClose;
    VerificationPiecesHold();
    FooterAfterYearEndsWithHtmlClose();
    VerificationBeforeCodeLacksHtmlClose();
    VerificationBeforeYearLacksHtmlClose();
  }

  /** Printed with a code and a year text that hold no `</html>`, the
      verification format holds exactly one. */
  lemma VerificationFormatClosesOnce(code: string, yearText: string)
    requires !Contains(code, HtmlClose) && !Contains(yearText, HtmlClose)
    ensures OccursOnce(Sprintf(VerificationFormat, [code, yearText]), HtmlClose)
  {
    var a, b, c := VerificationFormatSplitsAtHtmlClose();
    VerificationLayoutClosesOnce(a, b, c, code, yearText);
  }

  /** A verification email holds exactly one `</html>` when its code holds
      none. */
  lemma VerificationEmailClosesOnce(code: string, year: int)
    requires !Contains(code, HtmlClose)
    ensures OccursOnce(VerificationEmail(code, year), HtmlClose)
  {
    YearLacksHtmlClose(year);
    VerificationFormatClosesOnce(code, Decimal(year));
  }

  /** The password-reset template cut before its own `</html>`: four pieces
      laid out for `ResetLayoutClosesOnce`. */
  lemma ResetFormatSplitsAtHtmlClose() returns (a: string, b: string, c: string, d: string)
    ensures ResetFormat == [a, b, c, d + HtmlClose + TrailingSpace]
    ensures HasSuffix(a, " ") && HasPrefix(b, "\n") && HasSuffix(b, " ") && HasPrefix(c, "\n")
    ensures HasSuffix(c, CopyrightSign) && HasPrefix(d, RightsReserved)
    ensures !Contains(a, HtmlClose) && !Contains(b, HtmlClose) && !Contains(c, HtmlClose) && !Contains(d, HtmlClose)
  {
    a, b, c, d := ResetBeforeGreeting, ResetBetweenGreetingAndCode, ResetBeforeYear, FooterBeforeHtmlClose;
    ResetPiecesHold();
    FooterAfterYearEndsWithHtmlClose();
    ResetBeforeGreetingLacksHtmlClose();
    ResetBetweenGreetingAndCodeLacksHtmlClose();
    ResetBeforeYearLacksHtmlClose();
  }

  /** Printed with a greeting, a code and a year text that hold no
      `</html>`, the password-reset format holds exactly one. */
  lemma ResetFormatClosesOnce(greeting: string, code: string, yearText: string)
    requires !Contains(greeting, HtmlClose) && !Contains(code, HtmlClose) && !Contains(yearText, HtmlClose)
    ensures OccursOnce(Sprintf(ResetFormat, [greeting, code, yearText]), HtmlClose)
  {
    var a, b, c, d := ResetFormatSplitsAtHtmlClose();
    ResetLayoutClosesOnce(a, b, c, d, greeting, code, yearText);
  }

  /** A password-reset email holds exactly one `</html>` when neither its
      greeting nor its code holds one. */
  lemma ResetEmailClosesOnce(code: string, greeting: string, year: int)
    requires !Contains(greeting, HtmlClose) && !Contains(code, HtmlClose)
    ensures OccursOnce(ResetEmail(code, greeting, year), HtmlClose)
  {
    YearLacksHtmlClose(year);
    ResetFormatClosesOnce(greeting, code, Decimal(year));
  }

  /** The welcome template cut before its own `</html>`: six pieces laid out
      for `WelcomeLayoutClosesOnce`. */
  lemma WelcomeFormatSplitsAtHtmlClose() returns (a: string, b: string, c: string, d: string, e: string, f: string)
    ensures WelcomeFormat == [a, b, c, d, e, f + HtmlClose + TrailingSpace]
    ensures HasSuffix(a, HiPrefix) && HasPrefix(b, ",") && HasSuffix(b, HrefOpen) && HasPrefix(c, "\"")
    ensures HasSuffix(c, CopyrightSign) && HasPrefix(d, RightsReserved) && HasSuffix(d, HrefOpen)
    ensures HasPrefix(e, PolicyPath) && HasSuffix(e, HrefOpen) && HasPrefix(f, TermsPath)
    ensures !Contains(a, HtmlClose) && !Contains(b, HtmlClose) && !Contains(c, HtmlClose)
    ensures !Contains(d, HtmlClose) && !Contains(e, HtmlClose) && !Contains(f, HtmlClose)
  {
    a, b, c := WelcomeBeforeName, WelcomeBeforeDashboardLink, WelcomeBeforeYear;
    d, e, f := WelcomeBeforePolicyLink, WelcomeBeforeTermsLink, WelcomeEndBeforeHtmlClose;
    WelcomePiecesHold();
    WelcomeAfterTermsLinkEndsWithHtmlClose();
    WelcomeBeforeNameLacksHtmlClose();
    WelcomeBeforeDashboardLinkLacksHtmlClose();
    WelcomeBeforeYearLacksHtmlClose();
    WelcomeBeforePolicyLinkLacksHtmlClose();
    WelcomeBeforeTermsLinkLacksHtmlClose();
  }

  /** Printed with a name, a URL and a year text that hold no `</html>`,
      the welcome format holds exactly one. */
  lemma WelcomeFormatClosesOnce(name: string, url: string, yearText: string)
    requires !Contains(name, HtmlClose) && !Contains(url, HtmlClose) && !Contains(yearText, HtmlClose)
    ensures OccursOnce(Sprintf(WelcomeFormat, [name, url, yearText, url, url]), HtmlClose)
  {
    var a, b, c, d, e, f := WelcomeFormatSplitsAtHtmlClose();
    WelcomeLayoutClosesOnce(a, b, c, d, e, f, name, url, yearText);
  }

  /** A welcome email holds exactly one `</html>` when neither the name nor
      the URL holds one. */
  lemma WelcomeEmailClosesOnce(name: string, appURL: string, year: int)
    requires !Contains(name, HtmlClose) && !Contains(appURL, HtmlClose)
    ensures OccursOnce(WelcomeEmail(name, appURL, year), HtmlClose)
  {
    YearLacksHtmlClose(year);
    WelcomeFormatClosesOnce(name, appURL, Decimal(year));
  }

  // ---------------------------------------------------------------------------
  // Piece by piece
  // ---------------------------------------------------------------------------

  // No part of a template before its end holds `</html>`. `<Part>ShutsHtmlClose`
  // states that a part does not hold it and that no `</html>` can cross either
  // of its ends, and `<Piece>LacksHtmlClose` that a whole piece does not hold
  // it. Each literal line is shown free of `</html>` by a character, or two
  // or three adjacent characters, of `</html>` that it lacks.

  lemma SubheadingOpenShutsHtmlClose()
    ensures Shut(SubheadingOpen, HtmlClose)
  {
    AbsentCharNoContains("              <h2 style=\"margin: 0 ", HtmlClose, 1);
    var s := "              <h2 style=\"margin: 0 ";
    AbsentCharNoContains("0 20px 0; color: #1F2937; ", HtmlClose, 0);
    s := ShutAfter(s, "0 20px 0; color: #1F2937; ", HtmlClose);
    AbsentCharNoContains("font-size: 24px;\">", HtmlClose, 0);
    s := ShutAfter(s, "font-size: 24px;\">", HtmlClose);
  }
  lemma GreetingOpenShutsHtmlClose()
    ensures Shut(GreetingOpen, HtmlClose)
  {
    AbsentCharNoContains("</h2>\n", HtmlClose, 3);
    var s := "</h2>\n";
    AbsentCharNoContains("              <p style=\"margin: 0 0 ", HtmlClose, 1);
    s := ShutAfter(s, "              <p style=\"margin: 0 0 ", HtmlClose);
    AbsentCharNoContains("20px 0; color: #4B5563; font-size: ", HtmlClose, 0);
    s := ShutAfter(s, "20px 0; color: #4B5563; font-size: ", HtmlClose);
    AbsentCharNoContains("16px; line-height: 1.5;\">\n", HtmlClose, 0);
    s := ShutAfter(s, "16px; line-height: 1.5;\">\n", HtmlClose);
    AbsentCharNoContains("                ", HtmlClose, 0);
    s := ShutAfter(s, "                ", HtmlClose);
  }
  lemma ResetIntroShutsHtmlClose()
    ensures Shut(ResetIntro, HtmlClose)
  {
    SubheadingOpenShutsHtmlClose();
    var s := SubheadingOpen;
    AbsentCharNoContains(ResetHeading, HtmlClose, 0);
    s := ShutAfter(s, ResetHeading, HtmlClose);
    GreetingOpenShutsHtmlClose();
    s := ShutAfter(s, GreetingOpen, HtmlClose);
  }
  lemma HeadStartShutsHtmlClose()
    ensures Shut(HeadStart, HtmlClose)
  {
    AbsentCharNoContains("\n", HtmlClose, 0);
    var s := "\n";
    AbsentCharNoContains(HtmlOpenTag, HtmlClose, 1);
    s := ShutAfter(s, HtmlOpenTag, HtmlClose);
    AbsentCharNoContains("\n", HtmlClose, 0);
    s := ShutAfter(s, "\n", HtmlClose);
    AbsentCharNoContains(HeadOpenTag, HtmlClose, 1);
    s := ShutAfter(s, HeadOpenTag, HtmlClose);
    AbsentCharNoContains("\n", HtmlClose, 0);
    s := ShutAfter(s, "\n", HtmlClose);
    AbsentCharNoContains("  <meta ", HtmlClose, 1);
    s := ShutAfter(s, "  <meta ", HtmlClose);
    AbsentCharNoContains(CharsetAttribute, HtmlClose, 0);
    s := ShutAfter(s, CharsetAttribute, HtmlClose);
    AbsentCharNoContains(">\n", HtmlClose, 0);
    s := ShutAfter(s, ">\n", HtmlClose);
    AbsentCharNoContains("  ", HtmlClose, 0);
    s := ShutAfter(s, "  ", HtmlClose);
    AbsentCharNoContains(ViewportMeta, HtmlClose, 1);
    s := ShutAfter(s, ViewportMeta, HtmlClose);
    AbsentCharNoContains(" content=\"width=device-width, ", HtmlClose, 0);
    s := ShutAfter(s, " content=\"width=device-width, ", HtmlClose);
    AbsentCharNoContains("initial-scale=1.0\">\n", HtmlClose, 0);
    s := ShutAfter(s, "initial-scale=1.0\">\n", HtmlClose);
    AbsentCharNoContains("  <title>", HtmlClose, 1);
    s := ShutAfter(s, "  <title>", HtmlClose);
  }
  lemma HeadEndShutsHtmlClose()
    ensures Shut(HeadEnd, HtmlClose)
  {
    AbsentCharNoContains("</title>\n", HtmlClose, 2);
    var s := "</title>\n";
    AbsentCharNoContains(HeadCloseTag, HtmlClose, 3);
    s := ShutAfter(s, HeadCloseTag, HtmlClose);
    AbsentCharNoContains("\n", HtmlClose, 0);
    s := ShutAfter(s, "\n", HtmlClose);
  }
  lemma DocumentHeadShutsHtmlClose(title: string)
    requires !Contains(title, HtmlClose)
    ensures Shut(DocumentHead(title), HtmlClose)
  {
    AbsentCharNoContains(DocType, HtmlClose, 1);
    var s := DocType;
    HeadStartShutsHtmlClose();
    s := ShutAfter(s, HeadStart, HtmlClose);
    s := ShutAfter(s, title, HtmlClose);
    HeadEndShutsHtmlClose();
    s := ShutBefore(s, HeadEnd, HtmlClose);
  }
  lemma BodyStartShutsHtmlClose()
    ensures Shut(BodyStart, HtmlClose)
  {
    AbsentCharNoContains(BodyTagStart, HtmlClose, 1);
    var s := BodyTagStart;
    AbsentCharNoContains(" style=\"margin: 0; padding: 0; ", HtmlClose, 0);
    s := ShutAfter(s, " style=\"margin: 0; padding: 0; ", HtmlClose);
    AbsentCharNoContains("font-family: Arial, sans-serif; ", HtmlClose, 0);
    s := ShutAfter(s, "font-family: Arial, sans-serif; ", HtmlClose);
    AbsentCharNoContains("background-color: #f4f4f4;\">\n", HtmlClose, 0);
    s := ShutAfter(s, "background-color: #f4f4f4;\">\n", HtmlClose);
  }
  lemma OuterTableOpenShutsHtmlClose()
    ensures Shut(OuterTableOpen, HtmlClose)
  {
    AbsentCharNoContains("  ", HtmlClose, 0);
    var s := "  ";
    AbsentCharNoContains(TableTagStart, HtmlClose, 1);
    s := ShutAfter(s, TableTagStart, HtmlClose);
    AbsentCharNoContains(" width=\"100%\" cellpadding=\"0\" ", HtmlClose, 0);
    s := ShutAfter(s, " width=\"100%\" cellpadding=\"0\" ", HtmlClose);
    AbsentCharNoContains("cellspacing=\"0\" ", HtmlClose, 0);
    s := ShutAfter(s, "cellspacing=\"0\" ", HtmlClose);
    AbsentCharNoContains("style=\"background-color: #f4f4f4; ", HtmlClose, 0);
    s := ShutAfter(s, "style=\"background-color: #f4f4f4; ", HtmlClose);
    AbsentCharNoContains("padding: 20px;\">\n", HtmlClose, 0);
    s := ShutAfter(s, "padding: 20px;\">\n", HtmlClose);
    AbsentCharNoContains("    <tr>\n", HtmlClose, 1);
    s := ShutAfter(s, "    <tr>\n", HtmlClose);
    AbsentCharNoContains("      <td align=\"center\">\n", HtmlClose, 1);
    s := ShutAfter(s, "      <td align=\"center\">\n", HtmlClose);
  }
  lemma CardTableOpenShutsHtmlClose()
    ensures Shut(CardTableOpen, HtmlClose)
  {
    AbsentCharNoContains("        ", HtmlClose, 0);
    var s := "        ";
    AbsentCharNoContains(TableTagStart, HtmlClose, 1);
    s := ShutAfter(s, TableTagStart, HtmlClose);
    AbsentCharNoContains(" width=\"600\" cellpadding=\"0\" ", HtmlClose, 0);
    s := ShutAfter(s, " width=\"600\" cellpadding=\"0\" ", HtmlClose);
    AbsentCharNoContains("cellspacing=\"0\" ", HtmlClose, 0);
    s := ShutAfter(s, "cellspacing=\"0\" ", HtmlClose);
    AbsentCharNoContains("style=\"background-color: #ffffff; ", HtmlClose, 0);
    s := ShutAfter(s, "style=\"background-color: #ffffff; ", HtmlClose);
    AbsentCharNoContains("border-radius: 8px; overflow: ", HtmlClose, 0);
    s := ShutAfter(s, "border-radius: 8px; overflow: ", HtmlClose);
    AbsentCharNoContains("hidden;\">\n", HtmlClose, 0);
    s := ShutAfter(s, "hidden;\">\n", HtmlClose);
  }
  lemma BodyOpenShutsHtmlClose()
    ensures Shut(BodyOpen, HtmlClose)
  {
    BodyStartShutsHtmlClose();
    var s := BodyStart;
    OuterTableOpenShutsHtmlClose();
    s := ShutAfter(s, OuterTableOpen, HtmlClose);
    CardTableOpenShutsHtmlClose();
    s := ShutAfter(s, CardTableOpen, HtmlClose);
  }
  lemma HeaderRowOpenShutsHtmlClose()
    ensures Shut(HeaderRowOpen, HtmlClose)
  {
    AbsentCharNoContains("          <!-- Header -->\n", HtmlClose, 1);
    var s := "          <!-- Header -->\n";
    AbsentCharNoContains("          <tr>\n", HtmlClose, 1);
    s := ShutAfter(s, "          <tr>\n", HtmlClose);
    AbsentCharNoContains("            <td ", HtmlClose, 1);
    s := ShutAfter(s, "            <td ", HtmlClose);
    AbsentCharNoContains("style=\"background-color: ", HtmlClose, 0);
    s := ShutAfter(s, "style=\"background-color: ", HtmlClose);
  }
  lemma HeaderBandOpenShutsHtmlClose(color: string)
    requires !Contains(color, HtmlClose)
    ensures Shut(HeaderBandOpen(color), HtmlClose)
  {
    HeaderRowOpenShutsHtmlClose();
    var s := HeaderRowOpen;
    s := ShutAfter(s, color, HtmlClose);
    AbsentCharNoContains("; padding: 30px 40px; text-align: ", HtmlClose, 0);
    s := ShutBefore(s, "; padding: 30px 40px; text-align: ", HtmlClose);
    AbsentCharNoContains("center;\">\n", HtmlClose, 0);
    s := ShutAfter(s, "center;\">\n", HtmlClose);
    AbsentCharNoContains("              <h1 style=\"margin: 0; ", HtmlClose, 1);
    s := ShutAfter(s, "              <h1 style=\"margin: 0; ", HtmlClose);
    AbsentCharNoContains("color: #ffffff; font-size: 28px;\">", HtmlClose, 0);
    s := ShutAfter(s, "color: #ffffff; font-size: 28px;\">", HtmlClose);
  }
  lemma HeaderBandCloseShutsHtmlClose()
    ensures Shut(HeaderBandClose, HtmlClose)
  {
    AbsentCharNoContains("</h1>\n", HtmlClose, 3);
    var s := "</h1>\n";
    AbsentCharNoContains("            </td>\n", HtmlClose, 2);
    s := ShutAfter(s, "            </td>\n", HtmlClose);
    AbsentCharNoContains("          </tr>\n", HtmlClose, 2);
    s := ShutAfter(s, "          </tr>\n", HtmlClose);
    AbsentCharNoContains("\n", HtmlClose, 0);
    s := ShutAfter(s, "\n", HtmlClose);
  }
  lemma HeaderBandShutsHtmlClose(color: string, heading: string)
    requires !Contains(color, HtmlClose)
    requires !Contains(heading, HtmlClose)
    ensures Shut(HeaderBand(color, heading), HtmlClose)
  {
    HeaderBandOpenShutsHtmlClose(color);
    var s := HeaderBandOpen(color);
    s := ShutAfter(s, heading, HtmlClose);
    HeaderBandCloseShutsHtmlClose();
    s := ShutBefore(s, HeaderBandClose, HtmlClose);
  }
  lemma ContentOpenShutsHtmlClose()
    ensures Shut(ContentOpen, HtmlClose)
  {
    AbsentCharNoContains("          <!-- Content -->\n", HtmlClose, 1);
    var s := "          <!-- Content -->\n";
    AbsentCharNoContains("          <tr>\n", HtmlClose, 1);
    s := ShutAfter(s, "          <tr>\n", HtmlClose);
    AbsentCharNoContains("            <td style=\"padding: ", HtmlClose, 1);
    s := ShutAfter(s, "            <td style=\"padding: ", HtmlClose);
    AbsentCharNoContains("40px;\">\n", HtmlClose, 0);
    s := ShutAfter(s, "40px;\">\n", HtmlClose);
  }
  lemma DocumentTopShutsHtmlClose(title: string, color: string, heading: string, intro: string)
    requires !Contains(title, HtmlClose)
    requires !Contains(color, HtmlClose)
    requires !Contains(heading, HtmlClose)
    requires Shut(intro, HtmlClose)
    ensures Shut(DocumentTop(title, color, heading, intro), HtmlClose)
  {
    DocumentHeadShutsHtmlClose(title);
    var s := DocumentHead(title);
    BodyOpenShutsHtmlClose();
    s := ShutAfter(s, BodyOpen, HtmlClose);
    HeaderBandShutsHtmlClose(color, heading);
    s := ShutAfter(s, HeaderBand(color, heading), HtmlClose);
    ContentOpenShutsHtmlClose();
    s := ShutAfter(s, ContentOpen, HtmlClose);
    s := ShutAfter(s, intro, HtmlClose);
  }
  lemma ResetBeforeGreetingLacksHtmlClose()
    ensures !Contains(ResetBeforeGreeting, HtmlClose)
  {
    AbsentCharNoContains(ResetHeading, HtmlClose, 0);
    AbsentCharNoContains("#DC2626", HtmlClose, 0);
    AbsentCharNoContains(LockIcon, HtmlClose, 0);
    AbsentCharNoContains(" Password Reset", HtmlClose, 0);
    ContainsAppendIff(LockIcon, " Password Reset", HtmlClose);
    ResetIntroShutsHtmlClose();
    DocumentTopShutsHtmlClose(ResetHeading, "#DC2626", LockIcon + " Password Reset", ResetIntro);
  }
  lemma ExpiryLeadShutsHtmlClose()
    ensures Shut(ExpiryLead, HtmlClose)
  {
    AbsentCharNoContains("\n", HtmlClose, 0);
    var s := "\n";
    AbsentCharNoContains("                </div>\n", HtmlClose, 2);
    s := ShutAfter(s, "                </div>\n", HtmlClose);
    AbsentCharNoContains("              </div>\n", HtmlClose, 2);
    s := ShutAfter(s, "              </div>\n", HtmlClose);
    AbsentCharNoContains("\n", HtmlClose, 0);
    s := ShutAfter(s, "\n", HtmlClose);
    AbsentCharNoContains("              <p style=\"margin: ", HtmlClose, 1);
    s := ShutAfter(s, "              <p style=\"margin: ", HtmlClose);
    AbsentCharNoContains("20px 0 0 0; color: #6B7280; ", HtmlClose, 0);
    s := ShutAfter(s, "20px 0 0 0; color: #6B7280; ", HtmlClose);
    AbsentCharNoContains("font-size: 14px; line-height: ", HtmlClose, 0);
    s := ShutAfter(s, "font-size: 14px; line-height: ", HtmlClose);
    AbsentCharNoContains("1.5;\">\n", HtmlClose, 0);
    s := ShutAfter(s, "1.5;\">\n", HtmlClose);
    AbsentCharNoContains("                This code will ", HtmlClose, 0);
    s := ShutAfter(s, "                This code will ", HtmlClose);
    AbsentCharNoContains("expire in <strong>", HtmlClose, 1);
    s := ShutAfter(s, "expire in <strong>", HtmlClose);
  }
  lemma ExpiryTailShutsHtmlClose()
    ensures Shut(ExpiryTail, HtmlClose)
  {
    AbsentCharNoContains("</strong>.\n", HtmlClose, 2);
    var s := "</strong>.\n";
    AbsentCharNoContains("              </p>\n", HtmlClose, 2);
    s := ShutAfter(s, "              </p>\n", HtmlClose);
    AbsentCharNoContains("              <p style=\"margin: ", HtmlClose, 1);
    s := ShutAfter(s, "              <p style=\"margin: ", HtmlClose);
    AbsentCharNoContains("10px 0 0 0; color: #6B7280; ", HtmlClose, 0);
    s := ShutAfter(s, "10px 0 0 0; color: #6B7280; ", HtmlClose);
    AbsentCharNoContains("font-size: 14px; line-height: ", HtmlClose, 0);
    s := ShutAfter(s, "font-size: 14px; line-height: ", HtmlClose);
    AbsentCharNoContains("1.5;\">\n", HtmlClose, 0);
    s := ShutAfter(s, "1.5;\">\n", HtmlClose);
  }
  lemma ExpiryParagraphShutsHtmlClose()
    ensures Shut(ExpiryParagraph, HtmlClose)
  {
    ExpiryLeadShutsHtmlClose();
    var s := ExpiryLead;
    AbsentCharNoContains(ExpiryNotice, HtmlClose, 0);
    s := ShutAfter(s, ExpiryNotice, HtmlClose);
    ExpiryTailShutsHtmlClose();
    s := ShutAfter(s, ExpiryTail, HtmlClose);
  }
  lemma ResetDisclaimerShutsHtmlClose()
    ensures Shut(ResetDisclaimer, HtmlClose)
  {
    AbsentCharNoContains("                If you didn't ", HtmlClose, 0);
    var s := "                If you didn't ";
    AbsentCharNoContains("request a password reset, please ", HtmlClose, 0);
    s := ShutAfter(s, "request a password reset, please ", HtmlClose);
    AbsentCharNoContains("ignore this email and your password ", HtmlClose, 0);
    s := ShutAfter(s, "ignore this email and your password ", HtmlClose);
    AbsentCharNoContains("will remain unchanged.\n", HtmlClose, 0);
    s := ShutAfter(s, "will remain unchanged.\n", HtmlClose);
    AbsentCharNoContains("              </p>\n", HtmlClose, 2);
    s := ShutAfter(s, "              </p>\n", HtmlClose);
    AbsentCharNoContains("\n", HtmlClose, 0);
    s := ShutAfter(s, "\n", HtmlClose);
  }
  lemma SecurityNoticeOpenShutsHtmlClose()
    ensures Shut(SecurityNoticeOpen, HtmlClose)
  {
    AbsentCharNoContains("              <!-- Security Notice ", HtmlClose, 1);
    var s := "              <!-- Security Notice ";
    AbsentCharNoContains("-->\n", HtmlClose, 0);
    s := ShutAfter(s, "-->\n", HtmlClose);
    AbsentCharNoContains("              <div ", HtmlClose, 1);
    s := ShutAfter(s, "              <div ", HtmlClose);
    AbsentCharNoContains("style=\"background-color: #FFFBEB; ", HtmlClose, 0);
    s := ShutAfter(s, "style=\"background-color: #FFFBEB; ", HtmlClose);
    AbsentCharNoContains("border-left: 4px solid #F59E0B; ", HtmlClose, 0);
    s := ShutAfter(s, "border-left: 4px solid #F59E0B; ", HtmlClose);
    AbsentCharNoContains("padding: 15px; margin-top: 30px;\">\n", HtmlClose, 0);
    s := ShutAfter(s, "padding: 15px; margin-top: 30px;\">\n", HtmlClose);
    AbsentCharNoContains("                <p style=\"margin: ", HtmlClose, 1);
    s := ShutAfter(s, "                <p style=\"margin: ", HtmlClose);
    AbsentCharNoContains("0; color: #92400E; font-size: 13px; ", HtmlClose, 0);
    s := ShutAfter(s, "0; color: #92400E; font-size: 13px; ", HtmlClose);
    AbsentCharNoContains("line-height: 1.5;\">\n", HtmlClose, 0);
    s := ShutAfter(s, "line-height: 1.5;\">\n", HtmlClose);
    AbsentCharNoContains("                  <strong>", HtmlClose, 1);
    s := ShutAfter(s, "                  <strong>", HtmlClose);
  }
  lemma SecurityNoticeCloseShutsHtmlClose()
    ensures Shut(SecurityNoticeClose, HtmlClose)
  {
    AbsentCharNoContains(":</strong> Never share your ", HtmlClose, 4);
    var s := ":</strong> Never share your ";
    AbsentCharNoContains("password reset code with anyone. ", HtmlClose, 0);
    s := ShutAfter(s, "password reset code with anyone. ", HtmlClose);
    AbsentCharNoContains("Sponsoration staff will never ask ", HtmlClose, 0);
    s := ShutAfter(s, "Sponsoration staff will never ask ", HtmlClose);
    AbsentCharNoContains("for this code.\n", HtmlClose, 0);
    s := ShutAfter(s, "for this code.\n", HtmlClose);
    AbsentCharNoContains("                </p>\n", HtmlClose, 2);
    s := ShutAfter(s, "                </p>\n", HtmlClose);
    AbsentCharNoContains("              </div>\n", HtmlClose, 2);
    s := ShutAfter(s, "              </div>\n", HtmlClose);
    AbsentCharNoContains("            </td>\n", HtmlClose, 2);
    s := ShutAfter(s, "            </td>\n", HtmlClose);
    AbsentCharNoContains("          </tr>\n", HtmlClose, 2);
    s := ShutAfter(s, "          </tr>\n", HtmlClose);
    AbsentCharNoContains("\n", HtmlClose, 0);
    s := ShutAfter(s, "\n", HtmlClose);
  }
  lemma SecurityNoticeShutsHtmlClose()
    ensures Shut(SecurityNotice, HtmlClose)
  {
    SecurityNoticeOpenShutsHtmlClose();
    var s := SecurityNoticeOpen;
    AbsentCharNoContains(SecurityTip, HtmlClose, 0);
    s := ShutAfter(s, SecurityTip, HtmlClose);
    SecurityNoticeCloseShutsHtmlClose();
    s := ShutAfter(s, SecurityNoticeClose, HtmlClose);
  }
  lemma FooterOpenShutsHtmlClose()
    ensures Shut(FooterOpen, HtmlClose)
  {
    AbsentCharNoContains("          <!-- Footer -->\n", HtmlClose, 1);
    var s := "          <!-- Footer -->\n";
    AbsentCharNoContains("          <tr>\n", HtmlClose, 1);
    s := ShutAfter(s, "          <tr>\n", HtmlClose);
    AbsentCharNoContains("            <td ", HtmlClose, 1);
    s := ShutAfter(s, "            <td ", HtmlClose);
    AbsentCharNoContains("style=\"background-color: #F9FAFB; ", HtmlClose, 0);
    s := ShutAfter(s, "style=\"background-color: #F9FAFB; ", HtmlClose);
    AbsentCharNoContains("padding: 30px 40px; text-align: ", HtmlClose, 0);
    s := ShutAfter(s, "padding: 30px 40px; text-align: ", HtmlClose);
    AbsentCharNoContains("center; border-top: 1px solid ", HtmlClose, 0);
    s := ShutAfter(s, "center; border-top: 1px solid ", HtmlClose);
    AbsentCharNoContains("#E5E7EB;\">\n", HtmlClose, 0);
    s := ShutAfter(s, "#E5E7EB;\">\n", HtmlClose);
    AbsentCharNoContains("              <p style=\"margin: 0; ", HtmlClose, 1);
    s := ShutAfter(s, "              <p style=\"margin: 0; ", HtmlClose);
    AbsentCharNoContains("color: #9CA3AF; font-size: 12px;\">\n", HtmlClose, 0);
    s := ShutAfter(s, "color: #9CA3AF; font-size: 12px;\">\n", HtmlClose);
    AbsentCharNoContains("                ", HtmlClose, 0);
    s := ShutAfter(s, "                ", HtmlClose);
    AbsentCharNoContains(CopyrightSign, HtmlClose, 0);
    s := ShutAfter(s, CopyrightSign, HtmlClose);
  }
  lemma ResetBeforeYearLacksHtmlClose()
    ensures !Contains(ResetBeforeYear, HtmlClose)
  {
    ExpiryParagraphShutsHtmlClose();
    var s := ExpiryParagraph;
    ResetDisclaimerShutsHtmlClose();
    s := ShutAfter(s, ResetDisclaimer, HtmlClose);
    SecurityNoticeShutsHtmlClose();
    s := ShutAfter(s, SecurityNotice, HtmlClose);
    FooterOpenShutsHtmlClose();
    s := ShutAfter(s, FooterOpen, HtmlClose);
  }
  lemma ResetInstructionsShutsHtmlClose()
    ensures Shut(ResetInstructions, HtmlClose)
  {
    AbsentCharNoContains("              </p>\n", HtmlClose, 2);
    var s := "              </p>\n";
    AbsentCharNoContains("              <p style=\"margin: 0 0 ", HtmlClose, 1);
    s := ShutAfter(s, "              <p style=\"margin: 0 0 ", HtmlClose);
    AbsentCharNoContains("20px 0; color: #4B5563; font-size: ", HtmlClose, 0);
    s := ShutAfter(s, "20px 0; color: #4B5563; font-size: ", HtmlClose);
    AbsentCharNoContains("16px; line-height: 1.5;\">\n", HtmlClose, 0);
    s := ShutAfter(s, "16px; line-height: 1.5;\">\n", HtmlClose);
    AbsentCharNoContains("                You requested to ", HtmlClose, 0);
    s := ShutAfter(s, "                You requested to ", HtmlClose);
    AbsentCharNoContains("reset your password. Please use the ", HtmlClose, 0);
    s := ShutAfter(s, "reset your password. Please use the ", HtmlClose);
    AbsentCharNoContains("following code:\n", HtmlClose, 0);
    s := ShutAfter(s, "following code:\n", HtmlClose);
    AbsentCharNoContains("              </p>\n", HtmlClose, 2);
    s := ShutAfter(s, "              </p>\n", HtmlClose);
  }
  lemma ResetCodeBoxOpenShutsHtmlClose()
    ensures Shut(ResetCodeBoxOpen, HtmlClose)
  {
    AbsentCharNoContains("\n", HtmlClose, 0);
    var s := "\n";
    AbsentCharNoContains("              <!-- Code Box -->\n", HtmlClose, 1);
    s := ShutAfter(s, "              <!-- Code Box -->\n", HtmlClose);
    AbsentCharNoContains("              <div ", HtmlClose, 1);
    s := ShutAfter(s, "              <div ", HtmlClose);
    AbsentCharNoContains("style=\"background-color: #FEF2F2; ", HtmlClose, 0);
    s := ShutAfter(s, "style=\"background-color: #FEF2F2; ", HtmlClose);
    AbsentCharNoContains("border: 2px solid #FCA5A5; ", HtmlClose, 0);
    s := ShutAfter(s, "border: 2px solid #FCA5A5; ", HtmlClose);
    AbsentCharNoContains("border-radius: 8px; padding: 30px; ", HtmlClose, 0);
    s := ShutAfter(s, "border-radius: 8px; padding: 30px; ", HtmlClose);
    AbsentCharNoContains("text-align: center; margin: 30px ", HtmlClose, 0);
    s := ShutAfter(s, "text-align: center; margin: 30px ", HtmlClose);
    AbsentCharNoContains("0;\">\n", HtmlClose, 0);
    s := ShutAfter(s, "0;\">\n", HtmlClose);
  }
  lemma ResetCodeStyleShutsHtmlClose()
    ensures Shut(ResetCodeStyle, HtmlClose)
  {
    AbsentCharNoContains("                <div ", HtmlClose, 1);
    var s := "                <div ";
    AbsentCharNoContains("style=\"font-size: 32px; ", HtmlClose, 0);
    s := ShutAfter(s, "style=\"font-size: 32px; ", HtmlClose);
    AbsentCharNoContains("font-weight: bold; letter-spacing: ", HtmlClose, 0);
    s := ShutAfter(s, "font-weight: bold; letter-spacing: ", HtmlClose);
    AbsentCharNoContains("8px; color: #DC2626; font-family: ", HtmlClose, 0);
    s := ShutAfter(s, "8px; color: #DC2626; font-family: ", HtmlClose);
    AbsentCharNoContains("'Courier New', monospace;\">\n", HtmlClose, 0);
    s := ShutAfter(s, "'Courier New', monospace;\">\n", HtmlClose);
    AbsentCharNoContains("                  ", HtmlClose, 0);
    s := ShutAfter(s, "                  ", HtmlClose);
  }
  lemma ResetBetweenGreetingAndCodeLacksHtmlClose()
    ensures !Contains(ResetBetweenGreetingAndCode, HtmlClose)
  {
    AbsentCharNoContains("\n", HtmlClose, 0);
    var s := "\n";
    ResetInstructionsShutsHtmlClose();
    s := ShutAfter(s, ResetInstructions, HtmlClose);
    ResetCodeBoxOpenShutsHtmlClose();
    s := ShutAfter(s, ResetCodeBoxOpen, HtmlClose);
    ResetCodeStyleShutsHtmlClose();
    s := ShutAfter(s, ResetCodeStyle, HtmlClose);
  }
  lemma VerificationThanksShutsHtmlClose()
    ensures Shut(VerificationThanks, HtmlClose)
  {
    AbsentCharNoContains("              <p style=\"margin: 0 0 ", HtmlClose, 1);
    var s := "              <p style=\"margin: 0 0 ";
    AbsentCharNoContains("20px 0; color: #4B5563; font-size: ", HtmlClose, 0);
    s := ShutAfter(s, "20px 0; color: #4B5563; font-size: ", HtmlClose);
    AbsentCharNoContains("16px; line-height: 1.5;\">\n", HtmlClose, 0);
    s := ShutAfter(s, "16px; line-height: 1.5;\">\n", HtmlClose);
    AbsentCharNoContains("                Thank you for ", HtmlClose, 0);
    s := ShutAfter(s, "                Thank you for ", HtmlClose);
    AbsentCharNoContains("registering! Please use the ", HtmlClose, 0);
    s := ShutAfter(s, "registering! Please use the ", HtmlClose);
    AbsentCharNoContains("following code to verify your email ", HtmlClose, 0);
    s := ShutAfter(s, "following code to verify your email ", HtmlClose);
    AbsentCharNoContains("address:\n", HtmlClose, 0);
    s := ShutAfter(s, "address:\n", HtmlClose);
    AbsentCharNoContains("              </p>\n", HtmlClose, 2);
    s := ShutAfter(s, "              </p>\n", HtmlClose);
  }
  lemma VerificationCodeBoxOpenShutsHtmlClose()
    ensures Shut(VerificationCodeBoxOpen, HtmlClose)
  {
    AbsentCharNoContains("\n", HtmlClose, 0);
    var s := "\n";
    AbsentCharNoContains("              <!-- Code Box -->\n", HtmlClose, 1);
    s := ShutAfter(s, "              <!-- Code Box -->\n", HtmlClose);
    AbsentCharNoContains("              <div ", HtmlClose, 1);
    s := ShutAfter(s, "              <div ", HtmlClose);
    AbsentCharNoContains("style=\"background-color: #F3F4F6; ", HtmlClose, 0);
    s := ShutAfter(s, "style=\"background-color: #F3F4F6; ", HtmlClose);
    AbsentCharNoContains("border-radius: 8px; padding: 30px; ", HtmlClose, 0);
    s := ShutAfter(s, "border-radius: 8px; padding: 30px; ", HtmlClose);
    AbsentCharNoContains("text-align: center; margin: 30px ", HtmlClose, 0);
    s := ShutAfter(s, "text-align: center; margin: 30px ", HtmlClose);
    AbsentCharNoContains("0;\">\n", HtmlClose, 0);
    s := ShutAfter(s, "0;\">\n", HtmlClose);
  }
  lemma VerificationCodeStyleShutsHtmlClose()
    ensures Shut(VerificationCodeStyle, HtmlClose)
  {
    AbsentCharNoContains("                <div ", HtmlClose, 1);
    var s := "                <div ";
    AbsentCharNoContains("style=\"font-size: 32px; ", HtmlClose, 0);
    s := ShutAfter(s, "style=\"font-size: 32px; ", HtmlClose);
    AbsentCharNoContains("font-weight: bold; letter-spacing: ", HtmlClose, 0);
    s := ShutAfter(s, "font-weight: bold; letter-spacing: ", HtmlClose);
    AbsentCharNoContains("8px; color: #4F46E5; font-family: ", HtmlClose, 0);
    s := ShutAfter(s, "8px; color: #4F46E5; font-family: ", HtmlClose);
    AbsentCharNoContains("'Courier New', monospace;\">\n", HtmlClose, 0);
    s := ShutAfter(s, "'Courier New', monospace;\">\n", HtmlClose);
    AbsentCharNoContains("                  ", HtmlClose, 0);
    s := ShutAfter(s, "                  ", HtmlClose);
  }
  lemma VerificationPromptShutsHtmlClose()
    ensures Shut(VerificationPrompt, HtmlClose)
  {
    AbsentCharNoContains("</h2>\n", HtmlClose, 3);
    var s := "</h2>\n";
    VerificationThanksShutsHtmlClose();
    s := ShutAfter(s, VerificationThanks, HtmlClose);
    VerificationCodeBoxOpenShutsHtmlClose();
    s := ShutAfter(s, VerificationCodeBoxOpen, HtmlClose);
    VerificationCodeStyleShutsHtmlClose();
    s := ShutAfter(s, VerificationCodeStyle, HtmlClose);
  }
  lemma VerificationIntroShutsHtmlClose()
    ensures Shut(VerificationIntro, HtmlClose)
  {
    SubheadingOpenShutsHtmlClose();
    var s := SubheadingOpen;
    AbsentCharNoContains(VerifyHeading, HtmlClose, 0);
    s := ShutAfter(s, VerifyHeading, HtmlClose);
    VerificationPromptShutsHtmlClose();
    s := ShutAfter(s, VerificationPrompt, HtmlClose);
  }
  lemma VerificationBeforeCodeLacksHtmlClose()
    ensures !Contains(VerificationBeforeCode, HtmlClose)
  {
    AbsentCharNoContains(VerifyTitle, HtmlClose, 0);
    AbsentCharNoContains("#4F46E5", HtmlClose, 0);
    AbsentCharNoContains(BrandName, HtmlClose, 0);
    VerificationIntroShutsHtmlClose();
    DocumentTopShutsHtmlClose(VerifyTitle, "#4F46E5", BrandName, VerificationIntro);
  }
  lemma VerificationDisclaimerShutsHtmlClose()
    ensures Shut(VerificationDisclaimer, HtmlClose)
  {
    AbsentCharNoContains("                If you didn't ", HtmlClose, 0);
    var s := "                If you didn't ";
    AbsentCharNoContains("request this verification, please ", HtmlClose, 0);
    s := ShutAfter(s, "request this verification, please ", HtmlClose);
    AbsentCharNoContains("ignore this email.\n", HtmlClose, 0);
    s := ShutAfter(s, "ignore this email.\n", HtmlClose);
    AbsentCharNoContains("              </p>\n", HtmlClose, 2);
    s := ShutAfter(s, "              </p>\n", HtmlClose);
    AbsentCharNoContains("            </td>\n", HtmlClose, 2);
    s := ShutAfter(s, "            </td>\n", HtmlClose);
    AbsentCharNoContains("          </tr>\n", HtmlClose, 2);
    s := ShutAfter(s, "          </tr>\n", HtmlClose);
    AbsentCharNoContains("\n", HtmlClose, 0);
    s := ShutAfter(s, "\n", HtmlClose);
  }
  lemma VerificationBeforeYearLacksHtmlClose()
    ensures !Contains(VerificationBeforeYear, HtmlClose)
  {
    ExpiryParagraphShutsHtmlClose();
    var s := ExpiryParagraph;
    VerificationDisclaimerShutsHtmlClose();
    s := ShutAfter(s, VerificationDisclaimer, HtmlClose);
    FooterOpenShutsHtmlClose();
    s := ShutAfter(s, FooterOpen, HtmlClose);
  }
  lemma WelcomeThanksShutsHtmlClose()
    ensures Shut(WelcomeThanks, HtmlClose)
  {
    AbsentCharNoContains("              <p style=\"margin: 0 0 ", HtmlClose, 1);
    var s := "              <p style=\"margin: 0 0 ";
    AbsentCharNoContains("20px 0; color: #4B5563; font-size: ", HtmlClose, 0);
    s := ShutAfter(s, "20px 0; color: #4B5563; font-size: ", HtmlClose);
    AbsentCharNoContains("16px; line-height: 1.5;\">\n", HtmlClose, 0);
    s := ShutAfter(s, "16px; line-height: 1.5;\">\n", HtmlClose);
    AbsentCharNoContains("                Thank you for ", HtmlClose, 0);
    s := ShutAfter(s, "                Thank you for ", HtmlClose);
    AbsentCharNoContains("joining our community! We're ", HtmlClose, 0);
    s := ShutAfter(s, "joining our community! We're ", HtmlClose);
    AbsentCharNoContains("excited to have you on board.\n", HtmlClose, 0);
    s := ShutAfter(s, "excited to have you on board.\n", HtmlClose);
    AbsentCharNoContains("              </p>\n", HtmlClose, 2);
    s := ShutAfter(s, "              </p>\n", HtmlClose);
  }
  lemma WelcomeGetStartedShutsHtmlClose()
    ensures Shut(WelcomeGetStarted, HtmlClose)
  {
    AbsentCharNoContains("              <p style=\"margin: 0 0 ", HtmlClose, 1);
    var s := "              <p style=\"margin: 0 0 ";
    AbsentCharNoContains("30px 0; color: #4B5563; font-size: ", HtmlClose, 0);
    s := ShutAfter(s, "30px 0; color: #4B5563; font-size: ", HtmlClose);
    AbsentCharNoContains("16px; line-height: 1.5;\">\n", HtmlClose, 0);
    s := ShutAfter(s, "16px; line-height: 1.5;\">\n", HtmlClose);
    AbsentCharNoContains("                Get started by ", HtmlClose, 0);
    s := ShutAfter(s, "                Get started by ", HtmlClose);
    AbsentCharNoContains("completing your profile and ", HtmlClose, 0);
    s := ShutAfter(s, "completing your profile and ", HtmlClose);
    AbsentCharNoContains("exploring the platform.\n", HtmlClose, 0);
    s := ShutAfter(s, "exploring the platform.\n", HtmlClose);
    AbsentCharNoContains("              </p>\n", HtmlClose, 2);
    s := ShutAfter(s, "              </p>\n", HtmlClose);
  }
  lemma ButtonAreaOpenShutsHtmlClose()
    ensures Shut(ButtonAreaOpen, HtmlClose)
  {
    AbsentCharNoContains("\n", HtmlClose, 0);
    var s := "\n";
    AbsentCharNoContains("              <!-- CTA Button -->\n", HtmlClose, 1);
    s := ShutAfter(s, "              <!-- CTA Button -->\n", HtmlClose);
    AbsentCharNoContains("              <div ", HtmlClose, 1);
    s := ShutAfter(s, "              <div ", HtmlClose);
    AbsentCharNoContains("style=\"text-align: center; margin: ", HtmlClose, 0);
    s := ShutAfter(s, "style=\"text-align: center; margin: ", HtmlClose);
    AbsentCharNoContains("30px 0;\">\n", HtmlClose, 0);
    s := ShutAfter(s, "30px 0;\">\n", HtmlClose);
    AbsentCharNoContains("                ", HtmlClose, 0);
    s := ShutAfter(s, "                ", HtmlClose);
  }
  lemma WelcomeMessageShutsHtmlClose()
    ensures Shut(WelcomeMessage, HtmlClose)
  {
    AbsentCharNoContains("</h2>\n", HtmlClose, 3);
    var s := "</h2>\n";
    WelcomeThanksShutsHtmlClose();
    s := ShutAfter(s, WelcomeThanks, HtmlClose);
    WelcomeGetStartedShutsHtmlClose();
    s := ShutAfter(s, WelcomeGetStarted, HtmlClose);
    ButtonAreaOpenShutsHtmlClose();
    s := ShutAfter(s, ButtonAreaOpen, HtmlClose);
  }
  lemma WelcomeBeforeDashboardLinkLacksHtmlClose()
    ensures !Contains(WelcomeBeforeDashboardLink, HtmlClose)
  {
    AbsentCharNoContains(",", HtmlClose, 0);
    var s := ",";
    WelcomeMessageShutsHtmlClose();
    s := ShutAfter(s, WelcomeMessage, HtmlClose);
    AbsentCharNoContains(HrefOpen, HtmlClose, 1);
    s := ShutAfter(s, HrefOpen, HtmlClose);
  }
  lemma WelcomeIntroShutsHtmlClose()
    ensures Shut(WelcomeIntro, HtmlClose)
  {
    SubheadingOpenShutsHtmlClose();
    var s := SubheadingOpen;
    AbsentCharNoContains(HiPrefix, HtmlClose, 0);
    s := ShutAfter(s, HiPrefix, HtmlClose);
  }
  lemma WelcomeBeforeNameLacksHtmlClose()
    ensures !Contains(WelcomeBeforeName, HtmlClose)
  {
    AbsentCharNoContains(WelcomeTitle, HtmlClose, 0);
    AbsentCharNoContains("#10B981", HtmlClose, 0);
    AbsentCharNoContains(PartyIcon, HtmlClose, 0);
    AbsentCharNoContains(" Welcome to Sponsoration!", HtmlClose, 0);
    ContainsAppendIff(PartyIcon, " Welcome to Sponsoration!", HtmlClose);
    WelcomeIntroShutsHtmlClose();
    DocumentTopShutsHtmlClose(WelcomeTitle, "#10B981", PartyIcon + " Welcome to Sponsoration!", WelcomeIntro);
  }
  lemma FooterLinksLeadShutsHtmlClose()
    ensures Shut(FooterLinksLead, HtmlClose)
  {
    AbsentCharNoContains("\n", HtmlClose, 0);
    var s := "\n";
    AbsentCharNoContains("              </p>\n", HtmlClose, 2);
    s := ShutAfter(s, "              </p>\n", HtmlClose);
    AbsentCharNoContains("              <p style=\"margin: 0; ", HtmlClose, 1);
    s := ShutAfter(s, "              <p style=\"margin: 0; ", HtmlClose);
    AbsentCharNoContains("color: #9CA3AF; font-size: 12px;\">\n", HtmlClose, 0);
    s := ShutAfter(s, "color: #9CA3AF; font-size: 12px;\">\n", HtmlClose);
    AbsentCharNoContains("                ", HtmlClose, 0);
    s := ShutAfter(s, "                ", HtmlClose);
  }
  lemma WelcomeBeforePolicyLinkLacksHtmlClose()
    ensures !Contains(WelcomeBeforePolicyLink, HtmlClose)
  {
    AbsentCharNoContains(RightsReserved, HtmlClose, 0);
    var s := RightsReserved;
    FooterLinksLeadShutsHtmlClose();
    s := ShutAfter(s, FooterLinksLead, HtmlClose);
    AbsentCharNoContains(HrefOpen, HtmlClose, 1);
    s := ShutAfter(s, HrefOpen, HtmlClose);
  }
  lemma PolicyLinkTextShutsHtmlClose()
    ensures Shut(PolicyLinkText, HtmlClose)
  {
    AbsentCharNoContains("\" style=\"color: #6B7280; ", HtmlClose, 0);
    var s := "\" style=\"color: #6B7280; ";
    AbsentCharNoContains("text-decoration: none;\">Privacy ", HtmlClose, 0);
    s := ShutAfter(s, "text-decoration: none;\">Privacy ", HtmlClose);
    AbsentCharNoContains("Policy</a> \U{2022}\n", HtmlClose, 2);
    s := ShutAfter(s, "Policy</a> \U{2022}\n", HtmlClose);
    AbsentCharNoContains("                ", HtmlClose, 0);
    s := ShutAfter(s, "                ", HtmlClose);
  }
  lemma WelcomeBeforeTermsLinkLacksHtmlClose()
    ensures !Contains(WelcomeBeforeTermsLink, HtmlClose)
  {
    AbsentCharNoContains(PolicyPath, HtmlClose, 0);
    var s := PolicyPath;
    PolicyLinkTextShutsHtmlClose();
    s := ShutAfter(s, PolicyLinkText, HtmlClose);
    AbsentCharNoContains(HrefOpen, HtmlClose, 1);
    s := ShutAfter(s, HrefOpen, HtmlClose);
  }
  lemma DashboardButtonOpenShutsHtmlClose()
    ensures Shut(DashboardButtonOpen, HtmlClose)
  {
    AbsentCharNoContains("\n", HtmlClose, 0);
    var s := "\n";
    AbsentCharNoContains("                   style=\"display: ", HtmlClose, 0);
    s := ShutAfter(s, "                   style=\"display: ", HtmlClose);
    AbsentCharNoContains("inline-block; background-color: ", HtmlClose, 0);
    s := ShutAfter(s, "inline-block; background-color: ", HtmlClose);
    AbsentCharNoContains("#10B981; color: #ffffff; ", HtmlClose, 0);
    s := ShutAfter(s, "#10B981; color: #ffffff; ", HtmlClose);
    AbsentCharNoContains("text-decoration: none; padding: ", HtmlClose, 0);
    s := ShutAfter(s, "text-decoration: none; padding: ", HtmlClose);
    AbsentCharNoContains("15px 30px; border-radius: 6px; ", HtmlClose, 0);
    s := ShutAfter(s, "15px 30px; border-radius: 6px; ", HtmlClose);
    AbsentCharNoContains("font-weight: bold; font-size: ", HtmlClose, 0);
    s := ShutAfter(s, "font-weight: bold; font-size: ", HtmlClose);
    AbsentCharNoContains("16px;\">\n", HtmlClose, 0);
    s := ShutAfter(s, "16px;\">\n", HtmlClose);
    AbsentCharNoContains("                  ", HtmlClose, 0);
    s := ShutAfter(s, "                  ", HtmlClose);
  }
  lemma DashboardButtonCloseShutsHtmlClose()
    ensures Shut(DashboardButtonClose, HtmlClose)
  {
    AbsentCharNoContains("\n", HtmlClose, 0);
    var s := "\n";
    AbsentCharNoContains("                </a>\n", HtmlClose, 2);
    s := ShutAfter(s, "                </a>\n", HtmlClose);
    AbsentCharNoContains("              </div>\n", HtmlClose, 2);
    s := ShutAfter(s, "              </div>\n", HtmlClose);
    AbsentCharNoContains("\n", HtmlClose, 0);
    s := ShutAfter(s, "\n", HtmlClose);
    AbsentCharNoContains("              <p style=\"margin: ", HtmlClose, 1);
    s := ShutAfter(s, "              <p style=\"margin: ", HtmlClose);
    AbsentCharNoContains("30px 0 0 0; color: #6B7280; ", HtmlClose, 0);
    s := ShutAfter(s, "30px 0 0 0; color: #6B7280; ", HtmlClose);
    AbsentCharNoContains("font-size: 14px; line-height: ", HtmlClose, 0);
    s := ShutAfter(s, "font-size: 14px; line-height: ", HtmlClose);
    AbsentCharNoContains("1.5;\">\n", HtmlClose, 0);
    s := ShutAfter(s, "1.5;\">\n", HtmlClose);
    AbsentCharNoContains("                Best regards,<br>\n", HtmlClose, 1);
    s := ShutAfter(s, "                Best regards,<br>\n", HtmlClose);
    AbsentCharNoContains("                <strong>The ", HtmlClose, 1);
    s := ShutAfter(s, "                <strong>The ", HtmlClose);
    AbsentCharNoContains("Sponsoration Team</strong>\n", HtmlClose, 2);
    s := ShutAfter(s, "Sponsoration Team</strong>\n", HtmlClose);
    AbsentCharNoContains("              </p>\n", HtmlClose, 2);
    s := ShutAfter(s, "              </p>\n", HtmlClose);
    AbsentCharNoContains("            </td>\n", HtmlClose, 2);
    s := ShutAfter(s, "            </td>\n", HtmlClose);
    AbsentCharNoContains("          </tr>\n", HtmlClose, 2);
    s := ShutAfter(s, "          </tr>\n", HtmlClose);
    AbsentCharNoContains("\n", HtmlClose, 0);
    s := ShutAfter(s, "\n", HtmlClose);
  }
  lemma DashboardButtonShutsHtmlClose()
    ensures Shut(DashboardButton, HtmlClose)
  {
    DashboardButtonOpenShutsHtmlClose();
    var s := DashboardButtonOpen;
    AbsentCharNoContains(DashboardLabel, HtmlClose, 0);
    s := ShutAfter(s, DashboardLabel, HtmlClose);
    DashboardButtonCloseShutsHtmlClose();
    s := ShutAfter(s, DashboardButtonClose, HtmlClose);
  }
  lemma WelcomeFooterOpenShutsHtmlClose()
    ensures Shut(WelcomeFooterOpen, HtmlClose)
  {
    AbsentCharNoContains("          <!-- Footer -->\n", HtmlClose, 1);
    var s := "          <!-- Footer -->\n";
    AbsentCharNoContains("          <tr>\n", HtmlClose, 1);
    s := ShutAfter(s, "          <tr>\n", HtmlClose);
    AbsentCharNoContains("            <td ", HtmlClose, 1);
    s := ShutAfter(s, "            <td ", HtmlClose);
    AbsentCharNoContains("style=\"background-color: #F9FAFB; ", HtmlClose, 0);
    s := ShutAfter(s, "style=\"background-color: #F9FAFB; ", HtmlClose);
    AbsentCharNoContains("padding: 30px 40px; text-align: ", HtmlClose, 0);
    s := ShutAfter(s, "padding: 30px 40px; text-align: ", HtmlClose);
    AbsentCharNoContains("center; border-top: 1px solid ", HtmlClose, 0);
    s := ShutAfter(s, "center; border-top: 1px solid ", HtmlClose);
    AbsentCharNoContains("#E5E7EB;\">\n", HtmlClose, 0);
    s := ShutAfter(s, "#E5E7EB;\">\n", HtmlClose);
    AbsentCharNoContains("              <p style=\"margin: 0 0 ", HtmlClose, 1);
    s := ShutAfter(s, "              <p style=\"margin: 0 0 ", HtmlClose);
    AbsentCharNoContains("10px 0; color: #9CA3AF; font-size: ", HtmlClose, 0);
    s := ShutAfter(s, "10px 0; color: #9CA3AF; font-size: ", HtmlClose);
    AbsentCharNoContains("12px;\">\n", HtmlClose, 0);
    s := ShutAfter(s, "12px;\">\n", HtmlClose);
    AbsentCharNoContains("                ", HtmlClose, 0);
    s := ShutAfter(s, "                ", HtmlClose);
    AbsentCharNoContains(CopyrightSign, HtmlClose, 0);
    s := ShutAfter(s, CopyrightSign, HtmlClose);
  }
  lemma WelcomeBeforeYearLacksHtmlClose()
    ensures !Contains(WelcomeBeforeYear, HtmlClose)
  {
    AbsentCharNoContains("\"", HtmlClose, 0);
    var s := "\"";
    DashboardButtonShutsHtmlClose();
    s := ShutAfter(s, DashboardButton, HtmlClose);
    WelcomeFooterOpenShutsHtmlClose();
    s := ShutAfter(s, WelcomeFooterOpen, HtmlClose);
  }
  lemma FooterCloseShutsHtmlClose()
    ensures Shut(FooterClose, HtmlClose)
  {
    AbsentCharNoContains("\n", HtmlClose, 0);
    var s := "\n";
    AbsentCharNoContains("              </p>\n", HtmlClose, 2);
    s := ShutAfter(s, "              </p>\n", HtmlClose);
    AbsentCharNoContains("            </td>\n", HtmlClose, 2);
    s := ShutAfter(s, "            </td>\n", HtmlClose);
    AbsentCharNoContains("          </tr>\n", HtmlClose, 2);
    s := ShutAfter(s, "          </tr>\n", HtmlClose);
  }
  lemma TableCloseShutsHtmlClose()
    ensures Shut(TableClose, HtmlClose)
  {
    AbsentCharNoContains("        ", HtmlClose, 0);
    var s := "        ";
    AbsentCharNoContains(TableCloseTag, HtmlClose, 2);
    s := ShutAfter(s, TableCloseTag, HtmlClose);
    AbsentCharNoContains("\n", HtmlClose, 0);
    s := ShutAfter(s, "\n", HtmlClose);
    AbsentCharNoContains("      </td>\n", HtmlClose, 2);
    s := ShutAfter(s, "      </td>\n", HtmlClose);
    AbsentCharNoContains("    </tr>\n", HtmlClose, 2);
    s := ShutAfter(s, "    </tr>\n", HtmlClose);
    AbsentCharNoContains("  ", HtmlClose, 0);
    s := ShutAfter(s, "  ", HtmlClose);
    AbsentCharNoContains(TableCloseTag, HtmlClose, 2);
    s := ShutAfter(s, TableCloseTag, HtmlClose);
    AbsentCharNoContains("\n", HtmlClose, 0);
    s := ShutAfter(s, "\n", HtmlClose);
    AbsentCharNoContains(BodyCloseTag, HtmlClose, 2);
    s := ShutAfter(s, BodyCloseTag, HtmlClose);
    AbsentCharNoContains("\n", HtmlClose, 0);
    s := ShutAfter(s, "\n", HtmlClose);
  }
  lemma TermsLinkTextShutsHtmlClose()
    ensures Shut(TermsLinkText, HtmlClose)
  {
    AbsentCharNoContains("\" style=\"color: #6B7280; ", HtmlClose, 0);
    var s := "\" style=\"color: #6B7280; ";
    AbsentCharNoContains("text-decoration: none;\">Terms of ", HtmlClose, 0);
    s := ShutAfter(s, "text-decoration: none;\">Terms of ", HtmlClose);
    AbsentCharNoContains("Service</a>\n", HtmlClose, 2);
    s := ShutAfter(s, "Service</a>\n", HtmlClose);
    AbsentCharNoContains("              </p>\n", HtmlClose, 2);
    s := ShutAfter(s, "              </p>\n", HtmlClose);
    AbsentCharNoContains("            </td>\n", HtmlClose, 2);
    s := ShutAfter(s, "            </td>\n", HtmlClose);
    AbsentCharNoContains("          </tr>\n", HtmlClose, 2);
    s := ShutAfter(s, "          </tr>\n", HtmlClose);
  }
}
