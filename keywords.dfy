/** The words that each template's own text lacks. The template tests check
    that no email reads like one of the other two (a verification email never
    says "Password" or "Welcome", and so on) and that no email keeps an
    unfilled `%s` (internal/service/email_service_test.go, lines 263-369). */
module TemplateKeywords {
  import opened Text
  import opened Format
  import opened EmailTemplates

  // ---------------------------------------------------------------------------
  // The three literals
  // ---------------------------------------------------------------------------

  /** The verification literal says neither "Password" nor "Welcome", and no
      piece of it holds a `%s`: its only verbs are the ones between the pieces. */
  lemma VerificationFormatLacksOtherWords()
    ensures !SomeContains(VerificationFormat, "Password")
    ensures !SomeContains(VerificationFormat, "Welcome")
    ensures !SomeContains(VerificationFormat, "%s")
  {
    assert !SomeContains(VerificationFormat, "Password") by {
      VerificationBeforeCodeLacksPassword();
      VerificationBeforeYearLacksPassword();
      FooterAfterYearLacksPassword();
    }
    assert !SomeContains(VerificationFormat, "Welcome") by {
      VerificationBeforeCodeLacksWelcome();
      VerificationBeforeYearLacksWelcome();
      FooterAfterYearLacksWelcome();
    }
    assert !SomeContains(VerificationFormat, "%s") by {
      VerificationBeforeCodeLacksVerb();
      VerificationBeforeYearLacksVerb();
      FooterAfterYearLacksVerb();
    }
  }

  /** The reset literal says neither "Verify" nor "Welcome", and no piece of it
      holds a `%s`. */
  lemma ResetFormatLacksOtherWords()
    ensures !SomeContains(ResetFormat, "Verify")
    ensures !SomeContains(ResetFormat, "Welcome")
    ensures !SomeContains(ResetFormat, "%s")
  {
    assert !SomeContains(ResetFormat, "Verify") by {
      ResetBeforeGreetingLacksVerify();
      ResetBetweenGreetingAndCodeLacksVerify();
      ResetBeforeYearLacksVerify();
      FooterAfterYearLacksVerify();
    }
    assert !SomeContains(ResetFormat, "Welcome") by {
      ResetBeforeGreetingLacksWelcome();
      ResetBetweenGreetingAndCodeLacksWelcome();
      ResetBeforeYearLacksWelcome();
      FooterAfterYearLacksWelcome();
    }
    assert !SomeContains(ResetFormat, "%s") by {
      ResetBeforeGreetingLacksVerb();
      ResetBetweenGreetingAndCodeLacksVerb();
      ResetBeforeYearLacksVerb();
      FooterAfterYearLacksVerb();
    }
  }

  /** The welcome literal says neither "Verify", "Reset" nor "code", and no piece
      of it holds a `%s`. */
  lemma WelcomeFormatLacksOtherWords()
    ensures !SomeContains(WelcomeFormat, "Verify")
    ensures !SomeContains(WelcomeFormat, "Reset")
    ensures !SomeContains(WelcomeFormat, "code")
    ensures !SomeContains(WelcomeFormat, "%s")
  {
    assert !SomeContains(WelcomeFormat, "Verify") by {
      WelcomeBeforeNameLacksVerify();
      WelcomeBeforeDashboardLinkLacksVerify();
      WelcomeBeforeYearLacksVerify();
      WelcomeBeforePolicyLinkLacksVerify();
      WelcomeBeforeTermsLinkLacksVerify();
      WelcomeAfterTermsLinkLacksVerify();
    }
    assert !SomeContains(WelcomeFormat, "Reset") by {
      WelcomeBeforeNameLacksReset();
      WelcomeBeforeDashboardLinkLacksReset();
      WelcomeBeforeYearLacksReset();
      WelcomeBeforePolicyLinkLacksReset();
      WelcomeBeforeTermsLinkLacksReset();
      WelcomeAfterTermsLinkLacksReset();
    }
    assert !SomeContains(WelcomeFormat, "code") by {
      WelcomeBeforeNameLacksCode();
      WelcomeBeforeDashboardLinkLacksCode();
      WelcomeBeforeYearLacksCode();
      WelcomeBeforePolicyLinkLacksCode();
      WelcomeBeforeTermsLinkLacksCode();
      WelcomeAfterTermsLinkLacksCode();
    }
    assert !SomeContains(WelcomeFormat, "%s") by {
      WelcomeBeforeNameLacksVerb();
      WelcomeBeforeDashboardLinkLacksVerb();
      WelcomeBeforeYearLacksVerb();
      WelcomeBeforePolicyLinkLacksVerb();
      WelcomeBeforeTermsLinkLacksVerb();
      WelcomeAfterTermsLinkLacksVerb();
    }
  }

  // ---------------------------------------------------------------------------
  // The three emails
  // ---------------------------------------------------------------------------

  /** The words the tests look for are keywords: each holds a letter and no
      separator. */
  lemma TestedWordsAreKeywords()
    ensures IsKeyword("Password") && IsKeyword("Welcome") && IsKeyword("Verify")
    ensures IsKeyword("Reset") && IsKeyword("code") && IsKeyword("%s")
  {
    assert IsKeyword("Password") by { assert IsLetter("Password"[0]); }
    assert IsKeyword("Welcome") by { assert IsLetter("Welcome"[0]); }
    assert IsKeyword("Verify") by { assert IsLetter("Verify"[0]); }
    assert IsKeyword("Reset") by { assert IsLetter("Reset"[0]); }
    assert IsKeyword("code") by { assert IsLetter("code"[0]); }
    assert IsKeyword("%s") by { assert IsLetter("%s"[1]); }
  }

  /** A verification email mentions a password, a welcome or an unfilled `%s`
      only when the code does. */
  lemma VerificationEmailLacksOtherWords(code: string, year: int)
    ensures Contains(VerificationEmail(code, year), "Password") <==> Contains(code, "Password")
    ensures Contains(VerificationEmail(code, year), "Welcome") <==> Contains(code, "Welcome")
    ensures Contains(VerificationEmail(code, year), "%s") <==> Contains(code, "%s")
  {
    VerificationFormatLacksOtherWords();
    TestedWordsAreKeywords();
    VerificationEmailContains(code, year, "Password");
    VerificationEmailContains(code, year, "Welcome");
    VerificationEmailContains(code, year, "%s");
  }

  /** A reset email mentions verifying, a welcome or an unfilled `%s` only when
      the greeting or the code does. */
  lemma ResetEmailLacksOtherWords(code: string, greeting: string, year: int)
    ensures Contains(ResetEmail(code, greeting, year), "Verify")
      <==> Contains(greeting, "Verify") || Contains(code, "Verify")
    ensures Contains(ResetEmail(code, greeting, year), "Welcome")
      <==> Contains(greeting, "Welcome") || Contains(code, "Welcome")
    ensures Contains(ResetEmail(code, greeting, year), "%s")
      <==> Contains(greeting, "%s") || Contains(code, "%s")
  {
    ResetFormatLacksOtherWords();
    TestedWordsAreKeywords();
    ResetEmailContains(code, greeting, year, "Verify");
    ResetEmailContains(code, greeting, year, "Welcome");
    ResetEmailContains(code, greeting, year, "%s");
  }

  /** A welcome email mentions verifying, a reset, a code or an unfilled `%s`
      only when the name or the application URL does. */
  lemma WelcomeEmailLacksOtherWords(name: string, appURL: string, year: int)
    ensures Contains(WelcomeEmail(name, appURL, year), "Verify")
      <==> Contains(name, "Verify") || Contains(appURL, "Verify")
    ensures Contains(WelcomeEmail(name, appURL, year), "Reset")
      <==> Contains(name, "Reset") || Contains(appURL, "Reset")
    ensures Contains(WelcomeEmail(name, appURL, year), "code")
      <==> Contains(name, "code") || Contains(appURL, "code")
    ensures Contains(WelcomeEmail(name, appURL, year), "%s")
      <==> Contains(name, "%s") || Contains(appURL, "%s")
  {
    WelcomeFormatLacksOtherWords();
    TestedWordsAreKeywords();
    WelcomeEmailContains(name, appURL, year, "Verify");
    WelcomeEmailContains(name, appURL, year, "Reset");
    WelcomeEmailContains(name, appURL, year, "code");
    WelcomeEmailContains(name, appURL, year, "%s");
  }

  // ---------------------------------------------------------------------------
  // Piece by piece
  //
  // `<Piece>Seals<Word>` proves `Sealed(<Piece>, <word>)` ("Verb" stands for
  // `%s`): each literal chunk lacks a character, or a pair or triple of
  // adjacent characters, of the word, and each seam has a character the word
  // does not use on one side, so no occurrence can cross it.
  // ---------------------------------------------------------------------------

  lemma SubheadingOpenSealsPassword()
    ensures Sealed(SubheadingOpen, "Password")
  {
    AbsentCharNoContains("              <h2 style=\"margin: 0 ", "Password", 0);
    var s := "              <h2 style=\"margin: 0 ";
    AbsentCharNoContains("0 20px 0; color: #1F2937; ", "Password", 0);
    s := ExtendAfter(s, "0 20px 0; color: #1F2937; ", "Password");
    AbsentCharNoContains("font-size: 24px;\">", "Password", 0);
    s := ExtendAfter(s, "font-size: 24px;\">", "Password");
  }
  lemma VerificationThanksSealsPassword()
    ensures Sealed(VerificationThanks, "Password")
  {
    AbsentCharNoContains("              <p style=\"margin: 0 0 ", "Password", 0);
    var s := "              <p style=\"margin: 0 0 ";
    AbsentCharNoContains("20px 0; color: #4B5563; font-size: ", "Password", 0);
    s := ExtendAfter(s, "20px 0; color: #4B5563; font-size: ", "Password");
    AbsentCharNoContains("16px; line-height: 1.5;\">\n", "Password", 0);
    s := ExtendAfter(s, "16px; line-height: 1.5;\">\n", "Password");
    AbsentCharNoContains("                Thank you for ", "Password", 0);
    s := ExtendAfter(s, "                Thank you for ", "Password");
    AbsentCharNoContains("registering! Please use the ", "Password", 4);
    s := ExtendAfter(s, "registering! Please use the ", "Password");
    AbsentCharNoContains("following code to verify your email ", "Password", 0);
    s := ExtendAfter(s, "following code to verify your email ", "Password");
    AbsentCharNoContains("address:\n", "Password", 0);
    s := ExtendAfter(s, "address:\n", "Password");
    AbsentCharNoContains("              </p>\n", "Password", 0);
    s := ExtendAfter(s, "              </p>\n", "Password");
  }
  lemma VerificationCodeBoxOpenSealsPassword()
    ensures Sealed(VerificationCodeBoxOpen, "Password")
  {
    AbsentCharNoContains("\n", "Password", 0);
    var s := "\n";
    AbsentCharNoContains("              <!-- Code Box -->\n", "Password", 0);
    s := ExtendAfter(s, "              <!-- Code Box -->\n", "Password");
    AbsentCharNoContains("              <div ", "Password", 0);
    s := ExtendAfter(s, "              <div ", "Password");
    AbsentCharNoContains("style=\"background-color: #F3F4F6; ", "Password", 0);
    s := ExtendAfter(s, "style=\"background-color: #F3F4F6; ", "Password");
    AbsentCharNoContains("border-radius: 8px; padding: 30px; ", "Password", 0);
    s := ExtendAfter(s, "border-radius: 8px; padding: 30px; ", "Password");
    AbsentCharNoContains("text-align: center; margin: 30px ", "Password", 0);
    s := ExtendAfter(s, "text-align: center; margin: 30px ", "Password");
    AbsentCharNoContains("0;\">\n", "Password", 0);
    s := ExtendAfter(s, "0;\">\n", "Password");
  }
  lemma VerificationCodeStyleSealsPassword()
    ensures Sealed(VerificationCodeStyle, "Password")
  {
    AbsentCharNoContains("                <div ", "Password", 0);
    var s := "                <div ";
    AbsentCharNoContains("style=\"font-size: 32px; ", "Password", 0);
    s := ExtendAfter(s, "style=\"font-size: 32px; ", "Password");
    AbsentCharNoContains("font-weight: bold; letter-spacing: ", "Password", 0);
    s := ExtendAfter(s, "font-weight: bold; letter-spacing: ", "Password");
    AbsentCharNoContains("8px; color: #4F46E5; font-family: ", "Password", 0);
    s := ExtendAfter(s, "8px; color: #4F46E5; font-family: ", "Password");
    AbsentCharNoContains("'Courier New', monospace;\">\n", "Password", 0);
    s := ExtendAfter(s, "'Courier New', monospace;\">\n", "Password");
    AbsentCharNoContains("                  ", "Password", 0);
    s := ExtendAfter(s, "                  ", "Password");
  }
  lemma VerificationPromptSealsPassword()
    ensures Sealed(VerificationPrompt, "Password")
  {
    AbsentCharNoContains("</h2>\n", "Password", 0);
    var s := "</h2>\n";
    VerificationThanksSealsPassword();
    s := ExtendAfter(s, VerificationThanks, "Password");
    VerificationCodeBoxOpenSealsPassword();
    s := ExtendAfter(s, VerificationCodeBoxOpen, "Password");
    VerificationCodeStyleSealsPassword();
    s := ExtendAfter(s, VerificationCodeStyle, "Password");
  }
  lemma VerificationIntroSealsPassword()
    ensures Sealed(VerificationIntro, "Password")
  {
    SubheadingOpenSealsPassword();
    var s := SubheadingOpen;
    AbsentCharNoContains(VerifyHeading, "Password", 0);
    s := ExtendAfter(s, VerifyHeading, "Password");
    VerificationPromptSealsPassword();
    s := ExtendBefore(s, VerificationPrompt, "Password");
  }
  lemma HeadStartSealsPassword()
    ensures Sealed(HeadStart, "Password")
  {
    AbsentCharNoContains("\n", "Password", 0);
    var s := "\n";
    AbsentCharNoContains(HtmlOpenTag, "Password", 0);
    s := ExtendAfter(s, HtmlOpenTag, "Password");
    AbsentCharNoContains("\n", "Password", 0);
    s := ExtendAfter(s, "\n", "Password");
    AbsentCharNoContains(HeadOpenTag, "Password", 0);
    s := ExtendAfter(s, HeadOpenTag, "Password");
    AbsentCharNoContains("\n", "Password", 0);
    s := ExtendAfter(s, "\n", "Password");
    AbsentCharNoContains("  <meta ", "Password", 0);
    s := ExtendAfter(s, "  <meta ", "Password");
    AbsentCharNoContains(CharsetAttribute, "Password", 0);
    s := ExtendAfter(s, CharsetAttribute, "Password");
    AbsentCharNoContains(">\n", "Password", 0);
    s := ExtendAfter(s, ">\n", "Password");
    AbsentCharNoContains("  ", "Password", 0);
    s := ExtendAfter(s, "  ", "Password");
    AbsentCharNoContains(ViewportMeta, "Password", 0);
    s := ExtendAfter(s, ViewportMeta, "Password");
    AbsentCharNoContains(" content=\"width=device-width, ", "Password", 0);
    s := ExtendAfter(s, " content=\"width=device-width, ", "Password");
    AbsentCharNoContains("initial-scale=1.0\">\n", "Password", 0);
    s := ExtendAfter(s, "initial-scale=1.0\">\n", "Password");
    AbsentCharNoContains("  <title>", "Password", 0);
    s := ExtendAfter(s, "  <title>", "Password");
  }
  lemma HeadEndSealsPassword()
    ensures Sealed(HeadEnd, "Password")
  {
    AbsentCharNoContains("</title>\n", "Password", 0);
    var s := "</title>\n";
    AbsentCharNoContains(HeadCloseTag, "Password", 0);
    s := ExtendAfter(s, HeadCloseTag, "Password");
    AbsentCharNoContains("\n", "Password", 0);
    s := ExtendAfter(s, "\n", "Password");
  }
  lemma DocumentHeadSealsPassword(title: string)
    requires !Contains(title, "Password")
    ensures Sealed(DocumentHead(title), "Password")
  {
    AbsentCharNoContains(DocType, "Password", 1);
    var s := DocType;
    HeadStartSealsPassword();
    s := ExtendAfter(s, HeadStart, "Password");
    s := ExtendAfter(s, title, "Password");
    HeadEndSealsPassword();
    s := ExtendBefore(s, HeadEnd, "Password");
  }
  lemma BodyStartSealsPassword()
    ensures Sealed(BodyStart, "Password")
  {
    AbsentCharNoContains(BodyTagStart, "Password", 0);
    var s := BodyTagStart;
    AbsentCharNoContains(" style=\"margin: 0; padding: 0; ", "Password", 0);
    s := ExtendAfter(s, " style=\"margin: 0; padding: 0; ", "Password");
    AbsentCharNoContains("font-family: Arial, sans-serif; ", "Password", 0);
    s := ExtendAfter(s, "font-family: Arial, sans-serif; ", "Password");
    AbsentCharNoContains("background-color: #f4f4f4;\">\n", "Password", 0);
    s := ExtendAfter(s, "background-color: #f4f4f4;\">\n", "Password");
  }
  lemma OuterTableOpenSealsPassword()
    ensures Sealed(OuterTableOpen, "Password")
  {
    AbsentCharNoContains("  ", "Password", 0);
    var s := "  ";
    AbsentCharNoContains(TableTagStart, "Password", 0);
    s := ExtendAfter(s, TableTagStart, "Password");
    AbsentCharNoContains(" width=\"100%\" cellpadding=\"0\" ", "Password", 0);
    s := ExtendAfter(s, " width=\"100%\" cellpadding=\"0\" ", "Password");
    AbsentCharNoContains("cellspacing=\"0\" ", "Password", 0);
    s := ExtendAfter(s, "cellspacing=\"0\" ", "Password");
    AbsentCharNoContains("style=\"background-color: #f4f4f4; ", "Password", 0);
    s := ExtendAfter(s, "style=\"background-color: #f4f4f4; ", "Password");
    AbsentCharNoContains("padding: 20px;\">\n", "Password", 0);
    s := ExtendAfter(s, "padding: 20px;\">\n", "Password");
    AbsentCharNoContains("    <tr>\n", "Password", 0);
    s := ExtendAfter(s, "    <tr>\n", "Password");
    AbsentCharNoContains("      <td align=\"center\">\n", "Password", 0);
    s := ExtendAfter(s, "      <td align=\"center\">\n", "Password");
  }
  lemma CardTableOpenSealsPassword()
    ensures Sealed(CardTableOpen, "Password")
  {
    AbsentCharNoContains("        ", "Password", 0);
    var s := "        ";
    AbsentCharNoContains(TableTagStart, "Password", 0);
    s := ExtendAfter(s, TableTagStart, "Password");
    AbsentCharNoContains(" width=\"600\" cellpadding=\"0\" ", "Password", 0);
    s := ExtendAfter(s, " width=\"600\" cellpadding=\"0\" ", "Password");
    AbsentCharNoContains("cellspacing=\"0\" ", "Password", 0);
    s := ExtendAfter(s, "cellspacing=\"0\" ", "Password");
    AbsentCharNoContains("style=\"background-color: #ffffff; ", "Password", 0);
    s := ExtendAfter(s, "style=\"background-color: #ffffff; ", "Password");
    AbsentCharNoContains("border-radius: 8px; overflow: ", "Password", 0);
    s := ExtendAfter(s, "border-radius: 8px; overflow: ", "Password");
    AbsentCharNoContains("hidden;\">\n", "Password", 0);
    s := ExtendAfter(s, "hidden;\">\n", "Password");
  }
  lemma BodyOpenSealsPassword()
    ensures Sealed(BodyOpen, "Password")
  {
    BodyStartSealsPassword();
    var s := BodyStart;
    OuterTableOpenSealsPassword();
    s := ExtendAfter(s, OuterTableOpen, "Password");
    CardTableOpenSealsPassword();
    s := ExtendAfter(s, CardTableOpen, "Password");
  }
  lemma HeaderRowOpenSealsPassword()
    ensures Sealed(HeaderRowOpen, "Password")
  {
    AbsentCharNoContains("          <!-- Header -->\n", "Password", 0);
    var s := "          <!-- Header -->\n";
    AbsentCharNoContains("          <tr>\n", "Password", 0);
    s := ExtendAfter(s, "          <tr>\n", "Password");
    AbsentCharNoContains("            <td ", "Password", 0);
    s := ExtendAfter(s, "            <td ", "Password");
    AbsentCharNoContains("style=\"background-color: ", "Password", 0);
    s := ExtendAfter(s, "style=\"background-color: ", "Password");
  }
  lemma HeaderBandOpenSealsPassword(color: string)
    requires !Contains(color, "Password")
    ensures Sealed(HeaderBandOpen(color), "Password")
  {
    HeaderRowOpenSealsPassword();
    var s := HeaderRowOpen;
    s := ExtendAfter(s, color, "Password");
    AbsentCharNoContains("; padding: 30px 40px; text-align: ", "Password", 0);
    s := ExtendBefore(s, "; padding: 30px 40px; text-align: ", "Password");
    AbsentCharNoContains("center;\">\n", "Password", 0);
    s := ExtendAfter(s, "center;\">\n", "Password");
    AbsentCharNoContains("              <h1 style=\"margin: 0; ", "Password", 0);
    s := ExtendAfter(s, "              <h1 style=\"margin: 0; ", "Password");
    AbsentCharNoContains("color: #ffffff; font-size: 28px;\">", "Password", 0);
    s := ExtendAfter(s, "color: #ffffff; font-size: 28px;\">", "Password");
  }
  lemma HeaderBandCloseSealsPassword()
    ensures Sealed(HeaderBandClose, "Password")
  {
    AbsentCharNoContains("</h1>\n", "Password", 0);
    var s := "</h1>\n";
    AbsentCharNoContains("            </td>\n", "Password", 0);
    s := ExtendAfter(s, "            </td>\n", "Password");
    AbsentCharNoContains("          </tr>\n", "Password", 0);
    s := ExtendAfter(s, "          </tr>\n", "Password");
    AbsentCharNoContains("\n", "Password", 0);
    s := ExtendAfter(s, "\n", "Password");
  }
  lemma HeaderBandSealsPassword(color: string, heading: string)
    requires !Contains(color, "Password")
    requires !Contains(heading, "Password")
    ensures Sealed(HeaderBand(color, heading), "Password")
  {
    HeaderBandOpenSealsPassword(color);
    var s := HeaderBandOpen(color);
    s := ExtendAfter(s, heading, "Password");
    HeaderBandCloseSealsPassword();
    s := ExtendBefore(s, HeaderBandClose, "Password");
  }
  lemma ContentOpenSealsPassword()
    ensures Sealed(ContentOpen, "Password")
  {
    AbsentCharNoContains("          <!-- Content -->\n", "Password", 0);
    var s := "          <!-- Content -->\n";
    AbsentCharNoContains("          <tr>\n", "Password", 0);
    s := ExtendAfter(s, "          <tr>\n", "Password");
    AbsentCharNoContains("            <td style=\"padding: ", "Password", 0);
    s := ExtendAfter(s, "            <td style=\"padding: ", "Password");
    AbsentCharNoContains("40px;\">\n", "Password", 0);
    s := ExtendAfter(s, "40px;\">\n", "Password");
  }
  lemma DocumentTopSealsPassword(title: string, color: string, heading: string, intro: string)
    requires !Contains(title, "Password")
    requires !Contains(color, "Password")
    requires !Contains(heading, "Password")
    requires Sealed(intro, "Password")
    ensures Sealed(DocumentTop(title, color, heading, intro), "Password")
  {
    DocumentHeadSealsPassword(title);
    var s := DocumentHead(title);
    BodyOpenSealsPassword();
    s := ExtendAfter(s, BodyOpen, "Password");
    HeaderBandSealsPassword(color, heading);
    s := ExtendAfter(s, HeaderBand(color, heading), "Password");
    ContentOpenSealsPassword();
    s := ExtendAfter(s, ContentOpen, "Password");
    s := ExtendAfter(s, intro, "Password");
  }
  lemma VerificationBeforeCodeLacksPassword()
    ensures !Contains(VerificationBeforeCode, "Password")
  {
    AbsentCharNoContains(VerifyTitle, "Password", 0);
    AbsentCharNoContains("#4F46E5", "Password", 0);
    AbsentCharNoContains(BrandName, "Password", 0);
    VerificationIntroSealsPassword();
    DocumentTopSealsPassword(VerifyTitle, "#4F46E5", BrandName, VerificationIntro);
  }
  lemma ExpiryLeadSealsPassword()
    ensures Sealed(ExpiryLead, "Password")
  {
    AbsentCharNoContains("\n", "Password", 0);
    var s := "\n";
    AbsentCharNoContains("                </div>\n", "Password", 0);
    s := ExtendAfter(s, "                </div>\n", "Password");
    AbsentCharNoContains("              </div>\n", "Password", 0);
    s := ExtendAfter(s, "              </div>\n", "Password");
    AbsentCharNoContains("\n", "Password", 0);
    s := ExtendAfter(s, "\n", "Password");
    AbsentCharNoContains("              <p style=\"margin: ", "Password", 0);
    s := ExtendAfter(s, "              <p style=\"margin: ", "Password");
    AbsentCharNoContains("20px 0 0 0; color: #6B7280; ", "Password", 0);
    s := ExtendAfter(s, "20px 0 0 0; color: #6B7280; ", "Password");
    AbsentCharNoContains("font-size: 14px; line-height: ", "Password", 0);
    s := ExtendAfter(s, "font-size: 14px; line-height: ", "Password");
    AbsentCharNoContains("1.5;\">\n", "Password", 0);
    s := ExtendAfter(s, "1.5;\">\n", "Password");
    AbsentCharNoContains("                This code will ", "Password", 0);
    s := ExtendAfter(s, "                This code will ", "Password");
    AbsentCharNoContains("expire in <strong>", "Password", 0);
    s := ExtendAfter(s, "expire in <strong>", "Password");
  }
  lemma ExpiryTailSealsPassword()
    ensures Sealed(ExpiryTail, "Password")
  {
    AbsentCharNoContains("</strong>.\n", "Password", 0);
    var s := "</strong>.\n";
    AbsentCharNoContains("              </p>\n", "Password", 0);
    s := ExtendAfter(s, "              </p>\n", "Password");
    AbsentCharNoContains("              <p style=\"margin: ", "Password", 0);
    s := ExtendAfter(s, "              <p style=\"margin: ", "Password");
    AbsentCharNoContains("10px 0 0 0; color: #6B7280; ", "Password", 0);
    s := ExtendAfter(s, "10px 0 0 0; color: #6B7280; ", "Password");
    AbsentCharNoContains("font-size: 14px; line-height: ", "Password", 0);
    s := ExtendAfter(s, "font-size: 14px; line-height: ", "Password");
    AbsentCharNoContains("1.5;\">\n", "Password", 0);
    s := ExtendAfter(s, "1.5;\">\n", "Password");
  }
  lemma ExpiryParagraphSealsPassword()
    ensures Sealed(ExpiryParagraph, "Password")
  {
    ExpiryLeadSealsPassword();
    var s := ExpiryLead;
    AbsentCharNoContains(ExpiryNotice, "Password", 0);
    s := ExtendAfter(s, ExpiryNotice, "Password");
    ExpiryTailSealsPassword();
    s := ExtendBefore(s, ExpiryTail, "Password");
  }
  lemma VerificationDisclaimerSealsPassword()
    ensures Sealed(VerificationDisclaimer, "Password")
  {
    AbsentCharNoContains("                If you didn't ", "Password", 0);
    var s := "                If you didn't ";
    AbsentCharNoContains("request this verification, please ", "Password", 0);
    s := ExtendAfter(s, "request this verification, please ", "Password");
    AbsentCharNoContains("ignore this email.\n", "Password", 0);
    s := ExtendAfter(s, "ignore this email.\n", "Password");
    AbsentCharNoContains("              </p>\n", "Password", 0);
    s := ExtendAfter(s, "              </p>\n", "Password");
    AbsentCharNoContains("            </td>\n", "Password", 0);
    s := ExtendAfter(s, "            </td>\n", "Password");
    AbsentCharNoContains("          </tr>\n", "Password", 0);
    s := ExtendAfter(s, "          </tr>\n", "Password");
    AbsentCharNoContains("\n", "Password", 0);
    s := ExtendAfter(s, "\n", "Password");
  }
  lemma FooterOpenSealsPassword()
    ensures Sealed(FooterOpen, "Password")
  {
    AbsentCharNoContains("          <!-- Footer -->\n", "Password", 0);
    var s := "          <!-- Footer -->\n";
    AbsentCharNoContains("          <tr>\n", "Password", 0);
    s := ExtendAfter(s, "          <tr>\n", "Password");
    AbsentCharNoContains("            <td ", "Password", 0);
    s := ExtendAfter(s, "            <td ", "Password");
    AbsentCharNoContains("style=\"background-color: #F9FAFB; ", "Password", 0);
    s := ExtendAfter(s, "style=\"background-color: #F9FAFB; ", "Password");
    AbsentCharNoContains("padding: 30px 40px; text-align: ", "Password", 0);
    s := ExtendAfter(s, "padding: 30px 40px; text-align: ", "Password");
    AbsentCharNoContains("center; border-top: 1px solid ", "Password", 0);
    s := ExtendAfter(s, "center; border-top: 1px solid ", "Password");
    AbsentCharNoContains("#E5E7EB;\">\n", "Password", 0);
    s := ExtendAfter(s, "#E5E7EB;\">\n", "Password");
    AbsentCharNoContains("              <p style=\"margin: 0; ", "Password", 0);
    s := ExtendAfter(s, "              <p style=\"margin: 0; ", "Password");
    AbsentCharNoContains("color: #9CA3AF; font-size: 12px;\">\n", "Password", 0);
    s := ExtendAfter(s, "color: #9CA3AF; font-size: 12px;\">\n", "Password");
    AbsentCharNoContains("                ", "Password", 0);
    s := ExtendAfter(s, "                ", "Password");
    AbsentCharNoContains(CopyrightSign, "Password", 0);
    s := ExtendAfter(s, CopyrightSign, "Password");
  }
  lemma VerificationBeforeYearLacksPassword()
    ensures !Contains(VerificationBeforeYear, "Password")
  {
    ExpiryParagraphSealsPassword();
    var s := ExpiryParagraph;
    VerificationDisclaimerSealsPassword();
    s := ExtendAfter(s, VerificationDisclaimer, "Password");
    FooterOpenSealsPassword();
    s := ExtendAfter(s, FooterOpen, "Password");
  }
  lemma FooterCloseSealsPassword()
    ensures Sealed(FooterClose, "Password")
  {
    AbsentCharNoContains("\n", "Password", 0);
    var s := "\n";
    AbsentCharNoContains("              </p>\n", "Password", 0);
    s := ExtendAfter(s, "              </p>\n", "Password");
    AbsentCharNoContains("            </td>\n", "Password", 0);
    s := ExtendAfter(s, "            </td>\n", "Password");
    AbsentCharNoContains("          </tr>\n", "Password", 0);
    s := ExtendAfter(s, "          </tr>\n", "Password");
  }
  lemma TableCloseSealsPassword()
    ensures Sealed(TableClose, "Password")
  {
    AbsentCharNoContains("        ", "Password", 0);
    var s := "        ";
    AbsentCharNoContains(TableCloseTag, "Password", 0);
    s := ExtendAfter(s, TableCloseTag, "Password");
    AbsentCharNoContains("\n", "Password", 0);
    s := ExtendAfter(s, "\n", "Password");
    AbsentCharNoContains("      </td>\n", "Password", 0);
    s := ExtendAfter(s, "      </td>\n", "Password");
    AbsentCharNoContains("    </tr>\n", "Password", 0);
    s := ExtendAfter(s, "    </tr>\n", "Password");
    AbsentCharNoContains("  ", "Password", 0);
    s := ExtendAfter(s, "  ", "Password");
    AbsentCharNoContains(TableCloseTag, "Password", 0);
    s := ExtendAfter(s, TableCloseTag, "Password");
    AbsentCharNoContains("\n", "Password", 0);
    s := ExtendAfter(s, "\n", "Password");
    AbsentCharNoContains(BodyCloseTag, "Password", 0);
    s := ExtendAfter(s, BodyCloseTag, "Password");
    AbsentCharNoContains("\n", "Password", 0);
    s := ExtendAfter(s, "\n", "Password");
  }
  lemma DocumentClosingSealsPassword()
    ensures Sealed(DocumentClosing, "Password")
  {
    TableCloseSealsPassword();
    var s := TableClose;
    AbsentCharNoContains(HtmlClose, "Password", 0);
    s := ExtendAfter(s, HtmlClose, "Password");
    AbsentCharNoContains(TrailingSpace, "Password", 0);
    s := ExtendAfter(s, TrailingSpace, "Password");
  }
  lemma FooterAfterYearLacksPassword()
    ensures !Contains(FooterAfterYear, "Password")
  {
    AbsentCharNoContains(RightsReserved, "Password", 0);
    var s := RightsReserved;
    FooterCloseSealsPassword();
    s := ExtendAfter(s, FooterClose, "Password");
    DocumentClosingSealsPassword();
    s := ExtendAfter(s, DocumentClosing, "Password");
  }
  lemma SubheadingOpenSealsWelcome()
    ensures Sealed(SubheadingOpen, "Welcome")
  {
    AbsentCharNoContains("              <h2 style=\"margin: 0 ", "Welcome", 0);
    var s := "              <h2 style=\"margin: 0 ";
    AbsentCharNoContains("0 20px 0; color: #1F2937; ", "Welcome", 0);
    s := ExtendAfter(s, "0 20px 0; color: #1F2937; ", "Welcome");
    AbsentCharNoContains("font-size: 24px;\">", "Welcome", 0);
    s := ExtendAfter(s, "font-size: 24px;\">", "Welcome");
  }
  lemma VerificationThanksSealsWelcome()
    ensures Sealed(VerificationThanks, "Welcome")
  {
    AbsentCharNoContains("              <p style=\"margin: 0 0 ", "Welcome", 0);
    var s := "              <p style=\"margin: 0 0 ";
    AbsentCharNoContains("20px 0; color: #4B5563; font-size: ", "Welcome", 0);
    s := ExtendAfter(s, "20px 0; color: #4B5563; font-size: ", "Welcome");
    AbsentCharNoContains("16px; line-height: 1.5;\">\n", "Welcome", 0);
    s := ExtendAfter(s, "16px; line-height: 1.5;\">\n", "Welcome");
    AbsentCharNoContains("                Thank you for ", "Welcome", 0);
    s := ExtendAfter(s, "                Thank you for ", "Welcome");
    AbsentCharNoContains("registering! Please use the ", "Welcome", 0);
    s := ExtendAfter(s, "registering! Please use the ", "Welcome");
    AbsentCharNoContains("following code to verify your email ", "Welcome", 0);
    s := ExtendAfter(s, "following code to verify your email ", "Welcome");
    AbsentCharNoContains("address:\n", "Welcome", 0);
    s := ExtendAfter(s, "address:\n", "Welcome");
    AbsentCharNoContains("              </p>\n", "Welcome", 0);
    s := ExtendAfter(s, "              </p>\n", "Welcome");
  }
  lemma VerificationCodeBoxOpenSealsWelcome()
    ensures Sealed(VerificationCodeBoxOpen, "Welcome")
  {
    AbsentCharNoContains("\n", "Welcome", 0);
    var s := "\n";
    AbsentCharNoContains("              <!-- Code Box -->\n", "Welcome", 0);
    s := ExtendAfter(s, "              <!-- Code Box -->\n", "Welcome");
    AbsentCharNoContains("              <div ", "Welcome", 0);
    s := ExtendAfter(s, "              <div ", "Welcome");
    AbsentCharNoContains("style=\"background-color: #F3F4F6; ", "Welcome", 0);
    s := ExtendAfter(s, "style=\"background-color: #F3F4F6; ", "Welcome");
    AbsentCharNoContains("border-radius: 8px; padding: 30px; ", "Welcome", 0);
    s := ExtendAfter(s, "border-radius: 8px; padding: 30px; ", "Welcome");
    AbsentCharNoContains("text-align: center; margin: 30px ", "Welcome", 0);
    s := ExtendAfter(s, "text-align: center; margin: 30px ", "Welcome");
    AbsentCharNoContains("0;\">\n", "Welcome", 0);
    s := ExtendAfter(s, "0;\">\n", "Welcome");
  }
  lemma VerificationCodeStyleSealsWelcome()
    ensures Sealed(VerificationCodeStyle, "Welcome")
  {
    AbsentCharNoContains("                <div ", "Welcome", 0);
    var s := "                <div ";
    AbsentCharNoContains("style=\"font-size: 32px; ", "Welcome", 0);
    s := ExtendAfter(s, "style=\"font-size: 32px; ", "Welcome");
    AbsentCharNoContains("font-weight: bold; letter-spacing: ", "Welcome", 0);
    s := ExtendAfter(s, "font-weight: bold; letter-spacing: ", "Welcome");
    AbsentCharNoContains("8px; color: #4F46E5; font-family: ", "Welcome", 0);
    s := ExtendAfter(s, "8px; color: #4F46E5; font-family: ", "Welcome");
    AbsentCharNoContains("'Courier New', monospace;\">\n", "Welcome", 0);
    s := ExtendAfter(s, "'Courier New', monospace;\">\n", "Welcome");
    AbsentCharNoContains("                  ", "Welcome", 0);
    s := ExtendAfter(s, "                  ", "Welcome");
  }
  lemma VerificationPromptSealsWelcome()
    ensures Sealed(VerificationPrompt, "Welcome")
  {
    AbsentCharNoContains("</h2>\n", "Welcome", 0);
    var s := "</h2>\n";
    VerificationThanksSealsWelcome();
    s := ExtendAfter(s, VerificationThanks, "Welcome");
    VerificationCodeBoxOpenSealsWelcome();
    s := ExtendAfter(s, VerificationCodeBoxOpen, "Welcome");
    VerificationCodeStyleSealsWelcome();
    s := ExtendAfter(s, VerificationCodeStyle, "Welcome");
  }
  lemma VerificationIntroSealsWelcome()
    ensures Sealed(VerificationIntro, "Welcome")
  {
    SubheadingOpenSealsWelcome();
    var s := SubheadingOpen;
    AbsentCharNoContains(VerifyHeading, "Welcome", 0);
    s := ExtendAfter(s, VerifyHeading, "Welcome");
    VerificationPromptSealsWelcome();
    s := ExtendAfter(s, VerificationPrompt, "Welcome");
  }
  lemma HeadStartSealsWelcome()
    ensures Sealed(HeadStart, "Welcome")
  {
    AbsentCharNoContains("\n", "Welcome", 0);
    var s := "\n";
    AbsentCharNoContains(HtmlOpenTag, "Welcome", 0);
    s := ExtendAfter(s, HtmlOpenTag, "Welcome");
    AbsentCharNoContains("\n", "Welcome", 0);
    s := ExtendAfter(s, "\n", "Welcome");
    AbsentCharNoContains(HeadOpenTag, "Welcome", 0);
    s := ExtendAfter(s, HeadOpenTag, "Welcome");
    AbsentCharNoContains("\n", "Welcome", 0);
    s := ExtendAfter(s, "\n", "Welcome");
    AbsentCharNoContains("  <meta ", "Welcome", 0);
    s := ExtendAfter(s, "  <meta ", "Welcome");
    AbsentCharNoContains(CharsetAttribute, "Welcome", 0);
    s := ExtendAfter(s, CharsetAttribute, "Welcome");
    AbsentCharNoContains(">\n", "Welcome", 0);
    s := ExtendAfter(s, ">\n", "Welcome");
    AbsentCharNoContains("  ", "Welcome", 0);
    s := ExtendAfter(s, "  ", "Welcome");
    AbsentCharNoContains(ViewportMeta, "Welcome", 0);
    s := ExtendAfter(s, ViewportMeta, "Welcome");
    AbsentCharNoContains(" content=\"width=device-width, ", "Welcome", 0);
    s := ExtendAfter(s, " content=\"width=device-width, ", "Welcome");
    AbsentCharNoContains("initial-scale=1.0\">\n", "Welcome", 0);
    s := ExtendAfter(s, "initial-scale=1.0\">\n", "Welcome");
    AbsentCharNoContains("  <title>", "Welcome", 0);
    s := ExtendAfter(s, "  <title>", "Welcome");
  }
  lemma HeadEndSealsWelcome()
    ensures Sealed(HeadEnd, "Welcome")
  {
    AbsentCharNoContains("</title>\n", "Welcome", 0);
    var s := "</title>\n";
    AbsentCharNoContains(HeadCloseTag, "Welcome", 0);
    s := ExtendAfter(s, HeadCloseTag, "Welcome");
    AbsentCharNoContains("\n", "Welcome", 0);
    s := ExtendAfter(s, "\n", "Welcome");
  }
  lemma DocumentHeadSealsWelcome(title: string)
    requires !Contains(title, "Welcome")
    ensures Sealed(DocumentHead(title), "Welcome")
  {
    AbsentCharNoContains(DocType, "Welcome", 0);
    var s := DocType;
    HeadStartSealsWelcome();
    s := ExtendAfter(s, HeadStart, "Welcome");
    s := ExtendAfter(s, title, "Welcome");
    HeadEndSealsWelcome();
    s := ExtendBefore(s, HeadEnd, "Welcome");
  }
  lemma BodyStartSealsWelcome()
    ensures Sealed(BodyStart, "Welcome")
  {
    AbsentCharNoContains(BodyTagStart, "Welcome", 0);
    var s := BodyTagStart;
    AbsentCharNoContains(" style=\"margin: 0; padding: 0; ", "Welcome", 0);
    s := ExtendAfter(s, " style=\"margin: 0; padding: 0; ", "Welcome");
    AbsentCharNoContains("font-family: Arial, sans-serif; ", "Welcome", 0);
    s := ExtendAfter(s, "font-family: Arial, sans-serif; ", "Welcome");
    AbsentCharNoContains("background-color: #f4f4f4;\">\n", "Welcome", 0);
    s := ExtendAfter(s, "background-color: #f4f4f4;\">\n", "Welcome");
  }
  lemma OuterTableOpenSealsWelcome()
    ensures Sealed(OuterTableOpen, "Welcome")
  {
    AbsentCharNoContains("  ", "Welcome", 0);
    var s := "  ";
    AbsentCharNoContains(TableTagStart, "Welcome", 0);
    s := ExtendAfter(s, TableTagStart, "Welcome");
    AbsentCharNoContains(" width=\"100%\" cellpadding=\"0\" ", "Welcome", 0);
    s := ExtendBefore(s, " width=\"100%\" cellpadding=\"0\" ", "Welcome");
    AbsentCharNoContains("cellspacing=\"0\" ", "Welcome", 0);
    s := ExtendAfter(s, "cellspacing=\"0\" ", "Welcome");
    AbsentCharNoContains("style=\"background-color: #f4f4f4; ", "Welcome", 0);
    s := ExtendAfter(s, "style=\"background-color: #f4f4f4; ", "Welcome");
    AbsentCharNoContains("padding: 20px;\">\n", "Welcome", 0);
    s := ExtendAfter(s, "padding: 20px;\">\n", "Welcome");
    AbsentCharNoContains("    <tr>\n", "Welcome", 0);
    s := ExtendAfter(s, "    <tr>\n", "Welcome");
    AbsentCharNoContains("      <td align=\"center\">\n", "Welcome", 0);
    s := ExtendAfter(s, "      <td align=\"center\">\n", "Welcome");
  }
  lemma CardTableOpenSealsWelcome()
    ensures Sealed(CardTableOpen, "Welcome")
  {
    AbsentCharNoContains("        ", "Welcome", 0);
    var s := "        ";
    AbsentCharNoContains(TableTagStart, "Welcome", 0);
    s := ExtendAfter(s, TableTagStart, "Welcome");
    AbsentCharNoContains(" width=\"600\" cellpadding=\"0\" ", "Welcome", 0);
    s := ExtendBefore(s, " width=\"600\" cellpadding=\"0\" ", "Welcome");
    AbsentCharNoContains("cellspacing=\"0\" ", "Welcome", 0);
    s := ExtendAfter(s, "cellspacing=\"0\" ", "Welcome");
    AbsentCharNoContains("style=\"background-color: #ffffff; ", "Welcome", 0);
    s := ExtendAfter(s, "style=\"background-color: #ffffff; ", "Welcome");
    AbsentCharNoContains("border-radius: 8px; overflow: ", "Welcome", 0);
    s := ExtendAfter(s, "border-radius: 8px; overflow: ", "Welcome");
    AbsentCharNoContains("hidden;\">\n", "Welcome", 0);
    s := ExtendAfter(s, "hidden;\">\n", "Welcome");
  }
  lemma BodyOpenSealsWelcome()
    ensures Sealed(BodyOpen, "Welcome")
  {
    BodyStartSealsWelcome();
    var s := BodyStart;
    OuterTableOpenSealsWelcome();
    s := ExtendAfter(s, OuterTableOpen, "Welcome");
    CardTableOpenSealsWelcome();
    s := ExtendAfter(s, CardTableOpen, "Welcome");
  }
  lemma HeaderRowOpenSealsWelcome()
    ensures Sealed(HeaderRowOpen, "Welcome")
  {
    AbsentCharNoContains("          <!-- Header -->\n", "Welcome", 0);
    var s := "          <!-- Header -->\n";
    AbsentCharNoContains("          <tr>\n", "Welcome", 0);
    s := ExtendAfter(s, "          <tr>\n", "Welcome");
    AbsentCharNoContains("            <td ", "Welcome", 0);
    s := ExtendAfter(s, "            <td ", "Welcome");
    AbsentCharNoContains("style=\"background-color: ", "Welcome", 0);
    s := ExtendAfter(s, "style=\"background-color: ", "Welcome");
  }
  lemma HeaderBandOpenSealsWelcome(color: string)
    requires !Contains(color, "Welcome")
    ensures Sealed(HeaderBandOpen(color), "Welcome")
  {
    HeaderRowOpenSealsWelcome();
    var s := HeaderRowOpen;
    s := ExtendAfter(s, color, "Welcome");
    AbsentCharNoContains("; padding: 30px 40px; text-align: ", "Welcome", 0);
    s := ExtendBefore(s, "; padding: 30px 40px; text-align: ", "Welcome");
    AbsentCharNoContains("center;\">\n", "Welcome", 0);
    s := ExtendAfter(s, "center;\">\n", "Welcome");
    AbsentCharNoContains("              <h1 style=\"margin: 0; ", "Welcome", 0);
    s := ExtendAfter(s, "              <h1 style=\"margin: 0; ", "Welcome");
    AbsentCharNoContains("color: #ffffff; font-size: 28px;\">", "Welcome", 0);
    s := ExtendAfter(s, "color: #ffffff; font-size: 28px;\">", "Welcome");
  }
  lemma HeaderBandCloseSealsWelcome()
    ensures Sealed(HeaderBandClose, "Welcome")
  {
    AbsentCharNoContains("</h1>\n", "Welcome", 0);
    var s := "</h1>\n";
    AbsentCharNoContains("            </td>\n", "Welcome", 0);
    s := ExtendAfter(s, "            </td>\n", "Welcome");
    AbsentCharNoContains("          </tr>\n", "Welcome", 0);
    s := ExtendAfter(s, "          </tr>\n", "Welcome");
    AbsentCharNoContains("\n", "Welcome", 0);
    s := ExtendAfter(s, "\n", "Welcome");
  }
  lemma HeaderBandSealsWelcome(color: string, heading: string)
    requires !Contains(color, "Welcome")
    requires !Contains(heading, "Welcome")
    ensures Sealed(HeaderBand(color, heading), "Welcome")
  {
    HeaderBandOpenSealsWelcome(color);
    var s := HeaderBandOpen(color);
    s := ExtendAfter(s, heading, "Welcome");
    HeaderBandCloseSealsWelcome();
    s := ExtendBefore(s, HeaderBandClose, "Welcome");
  }
  lemma ContentOpenSealsWelcome()
    ensures Sealed(ContentOpen, "Welcome")
  {
    AbsentCharNoContains("          <!-- Content -->\n", "Welcome", 0);
    var s := "          <!-- Content -->\n";
    AbsentCharNoContains("          <tr>\n", "Welcome", 0);
    s := ExtendAfter(s, "          <tr>\n", "Welcome");
    AbsentCharNoContains("            <td style=\"padding: ", "Welcome", 0);
    s := ExtendAfter(s, "            <td style=\"padding: ", "Welcome");
    AbsentCharNoContains("40px;\">\n", "Welcome", 0);
    s := ExtendAfter(s, "40px;\">\n", "Welcome");
  }
  lemma DocumentTopSealsWelcome(title: string, color: string, heading: string, intro: string)
    requires !Contains(title, "Welcome")
    requires !Contains(color, "Welcome")
    requires !Contains(heading, "Welcome")
    requires Sealed(intro, "Welcome")
    ensures Sealed(DocumentTop(title, color, heading, intro), "Welcome")
  {
    DocumentHeadSealsWelcome(title);
    var s := DocumentHead(title);
    BodyOpenSealsWelcome();
    s := ExtendAfter(s, BodyOpen, "Welcome");
    HeaderBandSealsWelcome(color, heading);
    s := ExtendAfter(s, HeaderBand(color, heading), "Welcome");
    ContentOpenSealsWelcome();
    s := ExtendAfter(s, ContentOpen, "Welcome");
    s := ExtendAfter(s, intro, "Welcome");
  }
  lemma VerificationBeforeCodeLacksWelcome()
    ensures !Contains(VerificationBeforeCode, "Welcome")
  {
    AbsentCharNoContains(VerifyTitle, "Welcome", 0);
    AbsentCharNoContains("#4F46E5", "Welcome", 0);
    AbsentCharNoContains(BrandName, "Welcome", 0);
    VerificationIntroSealsWelcome();
    DocumentTopSealsWelcome(VerifyTitle, "#4F46E5", BrandName, VerificationIntro);
  }
  lemma ExpiryLeadSealsWelcome()
    ensures Sealed(ExpiryLead, "Welcome")
  {
    AbsentCharNoContains("\n", "Welcome", 0);
    var s := "\n";
    AbsentCharNoContains("                </div>\n", "Welcome", 0);
    s := ExtendAfter(s, "                </div>\n", "Welcome");
    AbsentCharNoContains("              </div>\n", "Welcome", 0);
    s := ExtendAfter(s, "              </div>\n", "Welcome");
    AbsentCharNoContains("\n", "Welcome", 0);
    s := ExtendAfter(s, "\n", "Welcome");
    AbsentCharNoContains("              <p style=\"margin: ", "Welcome", 0);
    s := ExtendAfter(s, "              <p style=\"margin: ", "Welcome");
    AbsentCharNoContains("20px 0 0 0; color: #6B7280; ", "Welcome", 0);
    s := ExtendAfter(s, "20px 0 0 0; color: #6B7280; ", "Welcome");
    AbsentCharNoContains("font-size: 14px; line-height: ", "Welcome", 0);
    s := ExtendAfter(s, "font-size: 14px; line-height: ", "Welcome");
    AbsentCharNoContains("1.5;\">\n", "Welcome", 0);
    s := ExtendAfter(s, "1.5;\">\n", "Welcome");
    AbsentCharNoContains("                This code will ", "Welcome", 0);
    s := ExtendAfter(s, "                This code will ", "Welcome");
    AbsentCharNoContains("expire in <strong>", "Welcome", 0);
    s := ExtendAfter(s, "expire in <strong>", "Welcome");
  }
  lemma ExpiryTailSealsWelcome()
    ensures Sealed(ExpiryTail, "Welcome")
  {
    AbsentCharNoContains("</strong>.\n", "Welcome", 0);
    var s := "</strong>.\n";
    AbsentCharNoContains("              </p>\n", "Welcome", 0);
    s := ExtendAfter(s, "              </p>\n", "Welcome");
    AbsentCharNoContains("              <p style=\"margin: ", "Welcome", 0);
    s := ExtendAfter(s, "              <p style=\"margin: ", "Welcome");
    AbsentCharNoContains("10px 0 0 0; color: #6B7280; ", "Welcome", 0);
    s := ExtendAfter(s, "10px 0 0 0; color: #6B7280; ", "Welcome");
    AbsentCharNoContains("font-size: 14px; line-height: ", "Welcome", 0);
    s := ExtendAfter(s, "font-size: 14px; line-height: ", "Welcome");
    AbsentCharNoContains("1.5;\">\n", "Welcome", 0);
    s := ExtendAfter(s, "1.5;\">\n", "Welcome");
  }
  lemma ExpiryParagraphSealsWelcome()
    ensures Sealed(ExpiryParagraph, "Welcome")
  {
    ExpiryLeadSealsWelcome();
    var s := ExpiryLead;
    AbsentCharNoContains(ExpiryNotice, "Welcome", 0);
    s := ExtendAfter(s, ExpiryNotice, "Welcome");
    ExpiryTailSealsWelcome();
    s := ExtendAfter(s, ExpiryTail, "Welcome");
  }
  lemma VerificationDisclaimerSealsWelcome()
    ensures Sealed(VerificationDisclaimer, "Welcome")
  {
    AbsentCharNoContains("                If you didn't ", "Welcome", 0);
    var s := "                If you didn't ";
    AbsentCharNoContains("request this verification, please ", "Welcome", 0);
    s := ExtendAfter(s, "request this verification, please ", "Welcome");
    AbsentCharNoContains("ignore this email.\n", "Welcome", 0);
    s := ExtendAfter(s, "ignore this email.\n", "Welcome");
    AbsentCharNoContains("              </p>\n", "Welcome", 0);
    s := ExtendAfter(s, "              </p>\n", "Welcome");
    AbsentCharNoContains("            </td>\n", "Welcome", 0);
    s := ExtendAfter(s, "            </td>\n", "Welcome");
    AbsentCharNoContains("          </tr>\n", "Welcome", 0);
    s := ExtendAfter(s, "          </tr>\n", "Welcome");
    AbsentCharNoContains("\n", "Welcome", 0);
    s := ExtendAfter(s, "\n", "Welcome");
  }
  lemma FooterOpenSealsWelcome()
    ensures Sealed(FooterOpen, "Welcome")
  {
    AbsentCharNoContains("          <!-- Footer -->\n", "Welcome", 0);
    var s := "          <!-- Footer -->\n";
    AbsentCharNoContains("          <tr>\n", "Welcome", 0);
    s := ExtendAfter(s, "          <tr>\n", "Welcome");
    AbsentCharNoContains("            <td ", "Welcome", 0);
    s := ExtendAfter(s, "            <td ", "Welcome");
    AbsentCharNoContains("style=\"background-color: #F9FAFB; ", "Welcome", 0);
    s := ExtendAfter(s, "style=\"background-color: #F9FAFB; ", "Welcome");
    AbsentCharNoContains("padding: 30px 40px; text-align: ", "Welcome", 0);
    s := ExtendAfter(s, "padding: 30px 40px; text-align: ", "Welcome");
    AbsentCharNoContains("center; border-top: 1px solid ", "Welcome", 0);
    s := ExtendAfter(s, "center; border-top: 1px solid ", "Welcome");
    AbsentCharNoContains("#E5E7EB;\">\n", "Welcome", 0);
    s := ExtendAfter(s, "#E5E7EB;\">\n", "Welcome");
    AbsentCharNoContains("              <p style=\"margin: 0; ", "Welcome", 0);
    s := ExtendAfter(s, "              <p style=\"margin: 0; ", "Welcome");
    AbsentCharNoContains("color: #9CA3AF; font-size: 12px;\">\n", "Welcome", 0);
    s := ExtendAfter(s, "color: #9CA3AF; font-size: 12px;\">\n", "Welcome");
    AbsentCharNoContains("                ", "Welcome", 0);
    s := ExtendAfter(s, "                ", "Welcome");
    AbsentCharNoContains(CopyrightSign, "Welcome", 0);
    s := ExtendAfter(s, CopyrightSign, "Welcome");
  }
  lemma VerificationBeforeYearLacksWelcome()
    ensures !Contains(VerificationBeforeYear, "Welcome")
  {
    ExpiryParagraphSealsWelcome();
    var s := ExpiryParagraph;
    VerificationDisclaimerSealsWelcome();
    s := ExtendAfter(s, VerificationDisclaimer, "Welcome");
    FooterOpenSealsWelcome();
    s := ExtendAfter(s, FooterOpen, "Welcome");
  }
  lemma FooterCloseSealsWelcome()
    ensures Sealed(FooterClose, "Welcome")
  {
    AbsentCharNoContains("\n", "Welcome", 0);
    var s := "\n";
    AbsentCharNoContains("              </p>\n", "Welcome", 0);
    s := ExtendAfter(s, "              </p>\n", "Welcome");
    AbsentCharNoContains("            </td>\n", "Welcome", 0);
    s := ExtendAfter(s, "            </td>\n", "Welcome");
    AbsentCharNoContains("          </tr>\n", "Welcome", 0);
    s := ExtendAfter(s, "          </tr>\n", "Welcome");
  }
  lemma TableCloseSealsWelcome()
    ensures Sealed(TableClose, "Welcome")
  {
    AbsentCharNoContains("        ", "Welcome", 0);
    var s := "        ";
    AbsentCharNoContains(TableCloseTag, "Welcome", 0);
    s := ExtendAfter(s, TableCloseTag, "Welcome");
    AbsentCharNoContains("\n", "Welcome", 0);
    s := ExtendAfter(s, "\n", "Welcome");
    AbsentCharNoContains("      </td>\n", "Welcome", 0);
    s := ExtendAfter(s, "      </td>\n", "Welcome");
    AbsentCharNoContains("    </tr>\n", "Welcome", 0);
    s := ExtendAfter(s, "    </tr>\n", "Welcome");
    AbsentCharNoContains("  ", "Welcome", 0);
    s := ExtendAfter(s, "  ", "Welcome");
    AbsentCharNoContains(TableCloseTag, "Welcome", 0);
    s := ExtendAfter(s, TableCloseTag, "Welcome");
    AbsentCharNoContains("\n", "Welcome", 0);
    s := ExtendAfter(s, "\n", "Welcome");
    AbsentCharNoContains(BodyCloseTag, "Welcome", 0);
    s := ExtendAfter(s, BodyCloseTag, "Welcome");
    AbsentCharNoContains("\n", "Welcome", 0);
    s := ExtendAfter(s, "\n", "Welcome");
  }
  lemma DocumentClosingSealsWelcome()
    ensures Sealed(DocumentClosing, "Welcome")
  {
    TableCloseSealsWelcome();
    var s := TableClose;
    AbsentCharNoContains(HtmlClose, "Welcome", 0);
    s := ExtendAfter(s, HtmlClose, "Welcome");
    AbsentCharNoContains(TrailingSpace, "Welcome", 0);
    s := ExtendAfter(s, TrailingSpace, "Welcome");
  }
  lemma FooterAfterYearLacksWelcome()
    ensures !Contains(FooterAfterYear, "Welcome")
  {
    AbsentCharNoContains(RightsReserved, "Welcome", 0);
    var s := RightsReserved;
    FooterCloseSealsWelcome();
    s := ExtendAfter(s, FooterClose, "Welcome");
    DocumentClosingSealsWelcome();
    s := ExtendAfter(s, DocumentClosing, "Welcome");
  }
  lemma SubheadingOpenSealsVerb()
    ensures Sealed(SubheadingOpen, "%s")
  {
    AbsentCharNoContains("              <h2 style=\"margin: 0 ", "%s", 0);
    var s := "              <h2 style=\"margin: 0 ";
    AbsentCharNoContains("0 20px 0; color: #1F2937; ", "%s", 0);
    s := ExtendAfter(s, "0 20px 0; color: #1F2937; ", "%s");
    AbsentCharNoContains("font-size: 24px;\">", "%s", 0);
    s := ExtendAfter(s, "font-size: 24px;\">", "%s");
  }
  lemma VerificationThanksSealsVerb()
    ensures Sealed(VerificationThanks, "%s")
  {
    AbsentCharNoContains("              <p style=\"margin: 0 0 ", "%s", 0);
    var s := "              <p style=\"margin: 0 0 ";
    AbsentCharNoContains("20px 0; color: #4B5563; font-size: ", "%s", 0);
    s := ExtendAfter(s, "20px 0; color: #4B5563; font-size: ", "%s");
    AbsentCharNoContains("16px; line-height: 1.5;\">\n", "%s", 0);
    s := ExtendAfter(s, "16px; line-height: 1.5;\">\n", "%s");
    AbsentCharNoContains("                Thank you for ", "%s", 0);
    s := ExtendAfter(s, "                Thank you for ", "%s");
    AbsentCharNoContains("registering! Please use the ", "%s", 0);
    s := ExtendAfter(s, "registering! Please use the ", "%s");
    AbsentCharNoContains("following code to verify your email ", "%s", 0);
    s := ExtendAfter(s, "following code to verify your email ", "%s");
    AbsentCharNoContains("address:\n", "%s", 0);
    s := ExtendAfter(s, "address:\n", "%s");
    AbsentCharNoContains("              </p>\n", "%s", 0);
    s := ExtendAfter(s, "              </p>\n", "%s");
  }
  lemma VerificationCodeBoxOpenSealsVerb()
    ensures Sealed(VerificationCodeBoxOpen, "%s")
  {
    AbsentCharNoContains("\n", "%s", 0);
    var s := "\n";
    AbsentCharNoContains("              <!-- Code Box -->\n", "%s", 0);
    s := ExtendAfter(s, "              <!-- Code Box -->\n", "%s");
    AbsentCharNoContains("              <div ", "%s", 0);
    s := ExtendAfter(s, "              <div ", "%s");
    AbsentCharNoContains("style=\"background-color: #F3F4F6; ", "%s", 0);
    s := ExtendAfter(s, "style=\"background-color: #F3F4F6; ", "%s");
    AbsentCharNoContains("border-radius: 8px; padding: 30px; ", "%s", 0);
    s := ExtendAfter(s, "border-radius: 8px; padding: 30px; ", "%s");
    AbsentCharNoContains("text-align: center; margin: 30px ", "%s", 0);
    s := ExtendAfter(s, "text-align: center; margin: 30px ", "%s");
    AbsentCharNoContains("0;\">\n", "%s", 0);
    s := ExtendAfter(s, "0;\">\n", "%s");
  }
  lemma VerificationCodeStyleSealsVerb()
    ensures Sealed(VerificationCodeStyle, "%s")
  {
    AbsentCharNoContains("                <div ", "%s", 0);
    var s := "                <div ";
    AbsentCharNoContains("style=\"font-size: 32px; ", "%s", 0);
    s := ExtendAfter(s, "style=\"font-size: 32px; ", "%s");
    AbsentCharNoContains("font-weight: bold; letter-spacing: ", "%s", 0);
    s := ExtendAfter(s, "font-weight: bold; letter-spacing: ", "%s");
    AbsentCharNoContains("8px; color: #4F46E5; font-family: ", "%s", 0);
    s := ExtendAfter(s, "8px; color: #4F46E5; font-family: ", "%s");
    AbsentCharNoContains("'Courier New', monospace;\">\n", "%s", 0);
    s := ExtendAfter(s, "'Courier New', monospace;\">\n", "%s");
    AbsentCharNoContains("                  ", "%s", 0);
    s := ExtendAfter(s, "                  ", "%s");
  }
  lemma VerificationPromptSealsVerb()
    ensures Sealed(VerificationPrompt, "%s")
  {
    AbsentCharNoContains("</h2>\n", "%s", 0);
    var s := "</h2>\n";
    VerificationThanksSealsVerb();
    s := ExtendAfter(s, VerificationThanks, "%s");
    VerificationCodeBoxOpenSealsVerb();
    s := ExtendAfter(s, VerificationCodeBoxOpen, "%s");
    VerificationCodeStyleSealsVerb();
    s := ExtendAfter(s, VerificationCodeStyle, "%s");
  }
  lemma VerificationIntroSealsVerb()
    ensures Sealed(VerificationIntro, "%s")
  {
    SubheadingOpenSealsVerb();
    var s := SubheadingOpen;
    AbsentCharNoContains(VerifyHeading, "%s", 0);
    s := ExtendAfter(s, VerifyHeading, "%s");
    VerificationPromptSealsVerb();
    s := ExtendBefore(s, VerificationPrompt, "%s");
  }
  lemma HeadStartSealsVerb()
    ensures Sealed(HeadStart, "%s")
  {
    AbsentCharNoContains("\n", "%s", 0);
    var s := "\n";
    AbsentCharNoContains(HtmlOpenTag, "%s", 0);
    s := ExtendAfter(s, HtmlOpenTag, "%s");
    AbsentCharNoContains("\n", "%s", 0);
    s := ExtendAfter(s, "\n", "%s");
    AbsentCharNoContains(HeadOpenTag, "%s", 0);
    s := ExtendAfter(s, HeadOpenTag, "%s");
    AbsentCharNoContains("\n", "%s", 0);
    s := ExtendAfter(s, "\n", "%s");
    AbsentCharNoContains("  <meta ", "%s", 0);
    s := ExtendAfter(s, "  <meta ", "%s");
    AbsentCharNoContains(CharsetAttribute, "%s", 0);
    s := ExtendAfter(s, CharsetAttribute, "%s");
    AbsentCharNoContains(">\n", "%s", 0);
    s := ExtendAfter(s, ">\n", "%s");
    AbsentCharNoContains("  ", "%s", 0);
    s := ExtendAfter(s, "  ", "%s");
    AbsentCharNoContains(ViewportMeta, "%s", 0);
    s := ExtendAfter(s, ViewportMeta, "%s");
    AbsentCharNoContains(" content=\"width=device-width, ", "%s", 0);
    s := ExtendAfter(s, " content=\"width=device-width, ", "%s");
    AbsentCharNoContains("initial-scale=1.0\">\n", "%s", 0);
    s := ExtendAfter(s, "initial-scale=1.0\">\n", "%s");
    AbsentCharNoContains("  <title>", "%s", 0);
    s := ExtendAfter(s, "  <title>", "%s");
  }
  lemma HeadEndSealsVerb()
    ensures Sealed(HeadEnd, "%s")
  {
    AbsentCharNoContains("</title>\n", "%s", 0);
    var s := "</title>\n";
    AbsentCharNoContains(HeadCloseTag, "%s", 0);
    s := ExtendAfter(s, HeadCloseTag, "%s");
    AbsentCharNoContains("\n", "%s", 0);
    s := ExtendAfter(s, "\n", "%s");
  }
  lemma DocumentHeadSealsVerb(title: string)
    requires !Contains(title, "%s")
    ensures Sealed(DocumentHead(title), "%s")
  {
    AbsentCharNoContains(DocType, "%s", 0);
    var s := DocType;
    HeadStartSealsVerb();
    s := ExtendAfter(s, HeadStart, "%s");
    s := ExtendAfter(s, title, "%s");
    HeadEndSealsVerb();
    s := ExtendBefore(s, HeadEnd, "%s");
  }
  lemma BodyStartSealsVerb()
    ensures Sealed(BodyStart, "%s")
  {
    AbsentCharNoContains(BodyTagStart, "%s", 0);
    var s := BodyTagStart;
    AbsentCharNoContains(" style=\"margin: 0; padding: 0; ", "%s", 0);
    s := ExtendAfter(s, " style=\"margin: 0; padding: 0; ", "%s");
    AbsentCharNoContains("font-family: Arial, sans-serif; ", "%s", 0);
    s := ExtendAfter(s, "font-family: Arial, sans-serif; ", "%s");
    AbsentCharNoContains("background-color: #f4f4f4;\">\n", "%s", 0);
    s := ExtendAfter(s, "background-color: #f4f4f4;\">\n", "%s");
  }
  lemma OuterTableOpenSealsVerb()
    ensures Sealed(OuterTableOpen, "%s")
  {
    AbsentCharNoContains("  ", "%s", 0);
    var s := "  ";
    AbsentCharNoContains(TableTagStart, "%s", 0);
    s := ExtendAfter(s, TableTagStart, "%s");
    AbsentCharNoContains(" width=\"100%\" cellpadding=\"0\" ", "%s", 1);
    s := ExtendAfter(s, " width=\"100%\" cellpadding=\"0\" ", "%s");
    AbsentCharNoContains("cellspacing=\"0\" ", "%s", 0);
    s := ExtendAfter(s, "cellspacing=\"0\" ", "%s");
    AbsentCharNoContains("style=\"background-color: #f4f4f4; ", "%s", 0);
    s := ExtendAfter(s, "style=\"background-color: #f4f4f4; ", "%s");
    AbsentCharNoContains("padding: 20px;\">\n", "%s", 0);
    s := ExtendAfter(s, "padding: 20px;\">\n", "%s");
    AbsentCharNoContains("    <tr>\n", "%s", 0);
    s := ExtendAfter(s, "    <tr>\n", "%s");
    AbsentCharNoContains("      <td align=\"center\">\n", "%s", 0);
    s := ExtendAfter(s, "      <td align=\"center\">\n", "%s");
  }
  lemma CardTableOpenSealsVerb()
    ensures Sealed(CardTableOpen, "%s")
  {
    AbsentCharNoContains("        ", "%s", 0);
    var s := "        ";
    AbsentCharNoContains(TableTagStart, "%s", 0);
    s := ExtendAfter(s, TableTagStart, "%s");
    AbsentCharNoContains(" width=\"600\" cellpadding=\"0\" ", "%s", 0);
    s := ExtendAfter(s, " width=\"600\" cellpadding=\"0\" ", "%s");
    AbsentCharNoContains("cellspacing=\"0\" ", "%s", 0);
    s := ExtendAfter(s, "cellspacing=\"0\" ", "%s");
    AbsentCharNoContains("style=\"background-color: #ffffff; ", "%s", 0);
    s := ExtendAfter(s, "style=\"background-color: #ffffff; ", "%s");
    AbsentCharNoContains("border-radius: 8px; overflow: ", "%s", 0);
    s := ExtendAfter(s, "border-radius: 8px; overflow: ", "%s");
    AbsentCharNoContains("hidden;\">\n", "%s", 0);
    s := ExtendAfter(s, "hidden;\">\n", "%s");
  }
  lemma BodyOpenSealsVerb()
    ensures Sealed(BodyOpen, "%s")
  {
    BodyStartSealsVerb();
    var s := BodyStart;
    OuterTableOpenSealsVerb();
    s := ExtendAfter(s, OuterTableOpen, "%s");
    CardTableOpenSealsVerb();
    s := ExtendAfter(s, CardTableOpen, "%s");
  }
  lemma HeaderRowOpenSealsVerb()
    ensures Sealed(HeaderRowOpen, "%s")
  {
    AbsentCharNoContains("          <!-- Header -->\n", "%s", 0);
    var s := "          <!-- Header -->\n";
    AbsentCharNoContains("          <tr>\n", "%s", 0);
    s := ExtendAfter(s, "          <tr>\n", "%s");
    AbsentCharNoContains("            <td ", "%s", 0);
    s := ExtendAfter(s, "            <td ", "%s");
    AbsentCharNoContains("style=\"background-color: ", "%s", 0);
    s := ExtendAfter(s, "style=\"background-color: ", "%s");
  }
  lemma HeaderBandOpenSealsVerb(color: string)
    requires !Contains(color, "%s")
    ensures Sealed(HeaderBandOpen(color), "%s")
  {
    HeaderRowOpenSealsVerb();
    var s := HeaderRowOpen;
    s := ExtendAfter(s, color, "%s");
    AbsentCharNoContains("; padding: 30px 40px; text-align: ", "%s", 0);
    s := ExtendBefore(s, "; padding: 30px 40px; text-align: ", "%s");
    AbsentCharNoContains("center;\">\n", "%s", 0);
    s := ExtendAfter(s, "center;\">\n", "%s");
    AbsentCharNoContains("              <h1 style=\"margin: 0; ", "%s", 0);
    s := ExtendAfter(s, "              <h1 style=\"margin: 0; ", "%s");
    AbsentCharNoContains("color: #ffffff; font-size: 28px;\">", "%s", 0);
    s := ExtendAfter(s, "color: #ffffff; font-size: 28px;\">", "%s");
  }
  lemma HeaderBandCloseSealsVerb()
    ensures Sealed(HeaderBandClose, "%s")
  {
    AbsentCharNoContains("</h1>\n", "%s", 0);
    var s := "</h1>\n";
    AbsentCharNoContains("            </td>\n", "%s", 0);
    s := ExtendAfter(s, "            </td>\n", "%s");
    AbsentCharNoContains("          </tr>\n", "%s", 0);
    s := ExtendAfter(s, "          </tr>\n", "%s");
    AbsentCharNoContains("\n", "%s", 0);
    s := ExtendAfter(s, "\n", "%s");
  }
  lemma HeaderBandSealsVerb(color: string, heading: string)
    requires !Contains(color, "%s")
    requires !Contains(heading, "%s")
    ensures Sealed(HeaderBand(color, heading), "%s")
  {
    HeaderBandOpenSealsVerb(color);
    var s := HeaderBandOpen(color);
    s := ExtendAfter(s, heading, "%s");
    HeaderBandCloseSealsVerb();
    s := ExtendBefore(s, HeaderBandClose, "%s");
  }
  lemma ContentOpenSealsVerb()
    ensures Sealed(ContentOpen, "%s")
  {
    AbsentCharNoContains("          <!-- Content -->\n", "%s", 0);
    var s := "          <!-- Content -->\n";
    AbsentCharNoContains("          <tr>\n", "%s", 0);
    s := ExtendAfter(s, "          <tr>\n", "%s");
    AbsentCharNoContains("            <td style=\"padding: ", "%s", 0);
    s := ExtendAfter(s, "            <td style=\"padding: ", "%s");
    AbsentCharNoContains("40px;\">\n", "%s", 0);
    s := ExtendAfter(s, "40px;\">\n", "%s");
  }
  lemma DocumentTopSealsVerb(title: string, color: string, heading: string, intro: string)
    requires !Contains(title, "%s")
    requires !Contains(color, "%s")
    requires !Contains(heading, "%s")
    requires Sealed(intro, "%s")
    ensures Sealed(DocumentTop(title, color, heading, intro), "%s")
  {
    DocumentHeadSealsVerb(title);
    var s := DocumentHead(title);
    BodyOpenSealsVerb();
    s := ExtendAfter(s, BodyOpen, "%s");
    HeaderBandSealsVerb(color, heading);
    s := ExtendAfter(s, HeaderBand(color, heading), "%s");
    ContentOpenSealsVerb();
    s := ExtendAfter(s, ContentOpen, "%s");
    s := ExtendAfter(s, intro, "%s");
  }
  lemma VerificationBeforeCodeLacksVerb()
    ensures !Contains(VerificationBeforeCode, "%s")
  {
    AbsentCharNoContains(VerifyTitle, "%s", 0);
    AbsentCharNoContains("#4F46E5", "%s", 0);
    AbsentCharNoContains(BrandName, "%s", 0);
    VerificationIntroSealsVerb();
    DocumentTopSealsVerb(VerifyTitle, "#4F46E5", BrandName, VerificationIntro);
  }
  lemma ExpiryLeadSealsVerb()
    ensures Sealed(ExpiryLead, "%s")
  {
    AbsentCharNoContains("\n", "%s", 0);
    var s := "\n";
    AbsentCharNoContains("                </div>\n", "%s", 0);
    s := ExtendAfter(s, "                </div>\n", "%s");
    AbsentCharNoContains("              </div>\n", "%s", 0);
    s := ExtendAfter(s, "              </div>\n", "%s");
    AbsentCharNoContains("\n", "%s", 0);
    s := ExtendAfter(s, "\n", "%s");
    AbsentCharNoContains("              <p style=\"margin: ", "%s", 0);
    s := ExtendAfter(s, "              <p style=\"margin: ", "%s");
    AbsentCharNoContains("20px 0 0 0; color: #6B7280; ", "%s", 0);
    s := ExtendAfter(s, "20px 0 0 0; color: #6B7280; ", "%s");
    AbsentCharNoContains("font-size: 14px; line-height: ", "%s", 0);
    s := ExtendAfter(s, "font-size: 14px; line-height: ", "%s");
    AbsentCharNoContains("1.5;\">\n", "%s", 0);
    s := ExtendAfter(s, "1.5;\">\n", "%s");
    AbsentCharNoContains("                This code will ", "%s", 0);
    s := ExtendAfter(s, "                This code will ", "%s");
    AbsentCharNoContains("expire in <strong>", "%s", 0);
    s := ExtendAfter(s, "expire in <strong>", "%s");
  }
  lemma ExpiryTailSealsVerb()
    ensures Sealed(ExpiryTail, "%s")
  {
    AbsentCharNoContains("</strong>.\n", "%s", 0);
    var s := "</strong>.\n";
    AbsentCharNoContains("              </p>\n", "%s", 0);
    s := ExtendAfter(s, "              </p>\n", "%s");
    AbsentCharNoContains("              <p style=\"margin: ", "%s", 0);
    s := ExtendAfter(s, "              <p style=\"margin: ", "%s");
    AbsentCharNoContains("10px 0 0 0; color: #6B7280; ", "%s", 0);
    s := ExtendAfter(s, "10px 0 0 0; color: #6B7280; ", "%s");
    AbsentCharNoContains("font-size: 14px; line-height: ", "%s", 0);
    s := ExtendAfter(s, "font-size: 14px; line-height: ", "%s");
    AbsentCharNoContains("1.5;\">\n", "%s", 0);
    s := ExtendAfter(s, "1.5;\">\n", "%s");
  }
  lemma ExpiryParagraphSealsVerb()
    ensures Sealed(ExpiryParagraph, "%s")
  {
    ExpiryLeadSealsVerb();
    var s := ExpiryLead;
    AbsentCharNoContains(ExpiryNotice, "%s", 0);
    s := ExtendAfter(s, ExpiryNotice, "%s");
    ExpiryTailSealsVerb();
    s := ExtendBefore(s, ExpiryTail, "%s");
  }
  lemma VerificationDisclaimerSealsVerb()
    ensures Sealed(VerificationDisclaimer, "%s")
  {
    AbsentCharNoContains("                If you didn't ", "%s", 0);
    var s := "                If you didn't ";
    AbsentCharNoContains("request this verification, please ", "%s", 0);
    s := ExtendAfter(s, "request this verification, please ", "%s");
    AbsentCharNoContains("ignore this email.\n", "%s", 0);
    s := ExtendAfter(s, "ignore this email.\n", "%s");
    AbsentCharNoContains("              </p>\n", "%s", 0);
    s := ExtendAfter(s, "              </p>\n", "%s");
    AbsentCharNoContains("            </td>\n", "%s", 0);
    s := ExtendAfter(s, "            </td>\n", "%s");
    AbsentCharNoContains("          </tr>\n", "%s", 0);
    s := ExtendAfter(s, "          </tr>\n", "%s");
    AbsentCharNoContains("\n", "%s", 0);
    s := ExtendAfter(s, "\n", "%s");
  }
  lemma FooterOpenSealsVerb()
    ensures Sealed(FooterOpen, "%s")
  {
    AbsentCharNoContains("          <!-- Footer -->\n", "%s", 0);
    var s := "          <!-- Footer -->\n";
    AbsentCharNoContains("          <tr>\n", "%s", 0);
    s := ExtendAfter(s, "          <tr>\n", "%s");
    AbsentCharNoContains("            <td ", "%s", 0);
    s := ExtendAfter(s, "            <td ", "%s");
    AbsentCharNoContains("style=\"background-color: #F9FAFB; ", "%s", 0);
    s := ExtendAfter(s, "style=\"background-color: #F9FAFB; ", "%s");
    AbsentCharNoContains("padding: 30px 40px; text-align: ", "%s", 0);
    s := ExtendAfter(s, "padding: 30px 40px; text-align: ", "%s");
    AbsentCharNoContains("center; border-top: 1px solid ", "%s", 0);
    s := ExtendAfter(s, "center; border-top: 1px solid ", "%s");
    AbsentCharNoContains("#E5E7EB;\">\n", "%s", 0);
    s := ExtendAfter(s, "#E5E7EB;\">\n", "%s");
    AbsentCharNoContains("              <p style=\"margin: 0; ", "%s", 0);
    s := ExtendAfter(s, "              <p style=\"margin: 0; ", "%s");
    AbsentCharNoContains("color: #9CA3AF; font-size: 12px;\">\n", "%s", 0);
    s := ExtendAfter(s, "color: #9CA3AF; font-size: 12px;\">\n", "%s");
    AbsentCharNoContains("                ", "%s", 0);
    s := ExtendAfter(s, "                ", "%s");
    AbsentCharNoContains(CopyrightSign, "%s", 0);
    s := ExtendAfter(s, CopyrightSign, "%s");
  }
  lemma VerificationBeforeYearLacksVerb()
    ensures !Contains(VerificationBeforeYear, "%s")
  {
    ExpiryParagraphSealsVerb();
    var s := ExpiryParagraph;
    VerificationDisclaimerSealsVerb();
    s := ExtendAfter(s, VerificationDisclaimer, "%s");
    FooterOpenSealsVerb();
    s := ExtendAfter(s, FooterOpen, "%s");
  }
  lemma FooterCloseSealsVerb()
    ensures Sealed(FooterClose, "%s")
  {
    AbsentCharNoContains("\n", "%s", 0);
    var s := "\n";
    AbsentCharNoContains("              </p>\n", "%s", 0);
    s := ExtendAfter(s, "              </p>\n", "%s");
    AbsentCharNoContains("            </td>\n", "%s", 0);
    s := ExtendAfter(s, "            </td>\n", "%s");
    AbsentCharNoContains("          </tr>\n", "%s", 0);
    s := ExtendAfter(s, "          </tr>\n", "%s");
  }
  lemma TableCloseSealsVerb()
    ensures Sealed(TableClose, "%s")
  {
    AbsentCharNoContains("        ", "%s", 0);
    var s := "        ";
    AbsentCharNoContains(TableCloseTag, "%s", 0);
    s := ExtendAfter(s, TableCloseTag, "%s");
    AbsentCharNoContains("\n", "%s", 0);
    s := ExtendAfter(s, "\n", "%s");
    AbsentCharNoContains("      </td>\n", "%s", 0);
    s := ExtendAfter(s, "      </td>\n", "%s");
    AbsentCharNoContains("    </tr>\n", "%s", 0);
    s := ExtendAfter(s, "    </tr>\n", "%s");
    AbsentCharNoContains("  ", "%s", 0);
    s := ExtendAfter(s, "  ", "%s");
    AbsentCharNoContains(TableCloseTag, "%s", 0);
    s := ExtendAfter(s, TableCloseTag, "%s");
    AbsentCharNoContains("\n", "%s", 0);
    s := ExtendAfter(s, "\n", "%s");
    AbsentCharNoContains(BodyCloseTag, "%s", 0);
    s := ExtendAfter(s, BodyCloseTag, "%s");
    AbsentCharNoContains("\n", "%s", 0);
    s := ExtendAfter(s, "\n", "%s");
  }
  lemma DocumentClosingSealsVerb()
    ensures Sealed(DocumentClosing, "%s")
  {
    TableCloseSealsVerb();
    var s := TableClose;
    AbsentCharNoContains(HtmlClose, "%s", 0);
    s := ExtendAfter(s, HtmlClose, "%s");
    AbsentCharNoContains(TrailingSpace, "%s", 0);
    s := ExtendAfter(s, TrailingSpace, "%s");
  }
  lemma FooterAfterYearLacksVerb()
    ensures !Contains(FooterAfterYear, "%s")
  {
    AbsentCharNoContains(RightsReserved, "%s", 0);
    var s := RightsReserved;
    FooterCloseSealsVerb();
    s := ExtendAfter(s, FooterClose, "%s");
    DocumentClosingSealsVerb();
    s := ExtendAfter(s, DocumentClosing, "%s");
  }
  lemma SubheadingOpenSealsVerify()
    ensures Sealed(SubheadingOpen, "Verify")
  {
    AbsentCharNoContains("              <h2 style=\"margin: 0 ", "Verify", 0);
    var s := "              <h2 style=\"margin: 0 ";
    AbsentCharNoContains("0 20px 0; color: #1F2937; ", "Verify", 0);
    s := ExtendAfter(s, "0 20px 0; color: #1F2937; ", "Verify");
    AbsentCharNoContains("font-size: 24px;\">", "Verify", 0);
    s := ExtendAfter(s, "font-size: 24px;\">", "Verify");
  }
  lemma GreetingOpenSealsVerify()
    ensures Sealed(GreetingOpen, "Verify")
  {
    AbsentCharNoContains("</h2>\n", "Verify", 0);
    var s := "</h2>\n";
    AbsentCharNoContains("              <p style=\"margin: 0 0 ", "Verify", 0);
    s := ExtendAfter(s, "              <p style=\"margin: 0 0 ", "Verify");
    AbsentCharNoContains("20px 0; color: #4B5563; font-size: ", "Verify", 0);
    s := ExtendAfter(s, "20px 0; color: #4B5563; font-size: ", "Verify");
    AbsentCharNoContains("16px; line-height: 1.5;\">\n", "Verify", 0);
    s := ExtendAfter(s, "16px; line-height: 1.5;\">\n", "Verify");
    AbsentCharNoContains("                ", "Verify", 0);
    s := ExtendAfter(s, "                ", "Verify");
  }
  lemma ResetIntroSealsVerify()
    ensures Sealed(ResetIntro, "Verify")
  {
    SubheadingOpenSealsVerify();
    var s := SubheadingOpen;
    AbsentCharNoContains(ResetHeading, "Verify", 0);
    s := ExtendAfter(s, ResetHeading, "Verify");
    GreetingOpenSealsVerify();
    s := ExtendAfter(s, GreetingOpen, "Verify");
  }
  lemma HeadStartSealsVerify()
    ensures Sealed(HeadStart, "Verify")
  {
    AbsentCharNoContains("\n", "Verify", 0);
    var s := "\n";
    AbsentCharNoContains(HtmlOpenTag, "Verify", 0);
    s := ExtendAfter(s, HtmlOpenTag, "Verify");
    AbsentCharNoContains("\n", "Verify", 0);
    s := ExtendAfter(s, "\n", "Verify");
    AbsentCharNoContains(HeadOpenTag, "Verify", 0);
    s := ExtendAfter(s, HeadOpenTag, "Verify");
    AbsentCharNoContains("\n", "Verify", 0);
    s := ExtendAfter(s, "\n", "Verify");
    AbsentCharNoContains("  <meta ", "Verify", 0);
    s := ExtendAfter(s, "  <meta ", "Verify");
    AbsentCharNoContains(CharsetAttribute, "Verify", 0);
    s := ExtendAfter(s, CharsetAttribute, "Verify");
    AbsentCharNoContains(">\n", "Verify", 0);
    s := ExtendAfter(s, ">\n", "Verify");
    AbsentCharNoContains("  ", "Verify", 0);
    s := ExtendAfter(s, "  ", "Verify");
    AbsentCharNoContains(ViewportMeta, "Verify", 0);
    s := ExtendAfter(s, ViewportMeta, "Verify");
    AbsentCharNoContains(" content=\"width=device-width, ", "Verify", 0);
    s := ExtendAfter(s, " content=\"width=device-width, ", "Verify");
    AbsentCharNoContains("initial-scale=1.0\">\n", "Verify", 0);
    s := ExtendAfter(s, "initial-scale=1.0\">\n", "Verify");
    AbsentCharNoContains("  <title>", "Verify", 0);
    s := ExtendAfter(s, "  <title>", "Verify");
  }
  lemma HeadEndSealsVerify()
    ensures Sealed(HeadEnd, "Verify")
  {
    AbsentCharNoContains("</title>\n", "Verify", 0);
    var s := "</title>\n";
    AbsentCharNoContains(HeadCloseTag, "Verify", 0);
    s := ExtendAfter(s, HeadCloseTag, "Verify");
    AbsentCharNoContains("\n", "Verify", 0);
    s := ExtendAfter(s, "\n", "Verify");
  }
  lemma DocumentHeadSealsVerify(title: string)
    requires !Contains(title, "Verify")
    ensures Sealed(DocumentHead(title), "Verify")
  {
    AbsentCharNoContains(DocType, "Verify", 0);
    var s := DocType;
    HeadStartSealsVerify();
    s := ExtendAfter(s, HeadStart, "Verify");
    s := ExtendAfter(s, title, "Verify");
    HeadEndSealsVerify();
    s := ExtendBefore(s, HeadEnd, "Verify");
  }
  lemma BodyStartSealsVerify()
    ensures Sealed(BodyStart, "Verify")
  {
    AbsentCharNoContains(BodyTagStart, "Verify", 0);
    var s := BodyTagStart;
    AbsentCharNoContains(" style=\"margin: 0; padding: 0; ", "Verify", 0);
    s := ExtendBefore(s, " style=\"margin: 0; padding: 0; ", "Verify");
    AbsentCharNoContains("font-family: Arial, sans-serif; ", "Verify", 0);
    s := ExtendAfter(s, "font-family: Arial, sans-serif; ", "Verify");
    AbsentCharNoContains("background-color: #f4f4f4;\">\n", "Verify", 0);
    s := ExtendAfter(s, "background-color: #f4f4f4;\">\n", "Verify");
  }
  lemma OuterTableOpenSealsVerify()
    ensures Sealed(OuterTableOpen, "Verify")
  {
    AbsentCharNoContains("  ", "Verify", 0);
    var s := "  ";
    AbsentCharNoContains(TableTagStart, "Verify", 0);
    s := ExtendAfter(s, TableTagStart, "Verify");
    AbsentCharNoContains(" width=\"100%\" cellpadding=\"0\" ", "Verify", 0);
    s := ExtendBefore(s, " width=\"100%\" cellpadding=\"0\" ", "Verify");
    AbsentCharNoContains("cellspacing=\"0\" ", "Verify", 0);
    s := ExtendAfter(s, "cellspacing=\"0\" ", "Verify");
    AbsentCharNoContains("style=\"background-color: #f4f4f4; ", "Verify", 0);
    s := ExtendAfter(s, "style=\"background-color: #f4f4f4; ", "Verify");
    AbsentCharNoContains("padding: 20px;\">\n", "Verify", 0);
    s := ExtendAfter(s, "padding: 20px;\">\n", "Verify");
    AbsentCharNoContains("    <tr>\n", "Verify", 0);
    s := ExtendAfter(s, "    <tr>\n", "Verify");
    AbsentCharNoContains("      <td align=\"center\">\n", "Verify", 0);
    s := ExtendAfter(s, "      <td align=\"center\">\n", "Verify");
  }
  lemma CardTableOpenSealsVerify()
    ensures Sealed(CardTableOpen, "Verify")
  {
    AbsentCharNoContains("        ", "Verify", 0);
    var s := "        ";
    AbsentCharNoContains(TableTagStart, "Verify", 0);
    s := ExtendAfter(s, TableTagStart, "Verify");
    AbsentCharNoContains(" width=\"600\" cellpadding=\"0\" ", "Verify", 0);
    s := ExtendBefore(s, " width=\"600\" cellpadding=\"0\" ", "Verify");
    AbsentCharNoContains("cellspacing=\"0\" ", "Verify", 0);
    s := ExtendAfter(s, "cellspacing=\"0\" ", "Verify");
    AbsentCharNoContains("style=\"background-color: #ffffff; ", "Verify", 0);
    s := ExtendAfter(s, "style=\"background-color: #ffffff; ", "Verify");
    AbsentCharNoContains("border-radius: 8px; overflow: ", "Verify", 0);
    s := ExtendAfter(s, "border-radius: 8px; overflow: ", "Verify");
    AbsentCharNoContains("hidden;\">\n", "Verify", 0);
    s := ExtendAfter(s, "hidden;\">\n", "Verify");
  }
  lemma BodyOpenSealsVerify()
    ensures Sealed(BodyOpen, "Verify")
  {
    BodyStartSealsVerify();
    var s := BodyStart;
    OuterTableOpenSealsVerify();
    s := ExtendAfter(s, OuterTableOpen, "Verify");
    CardTableOpenSealsVerify();
    s := ExtendAfter(s, CardTableOpen, "Verify");
  }
  lemma HeaderRowOpenSealsVerify()
    ensures Sealed(HeaderRowOpen, "Verify")
  {
    AbsentCharNoContains("          <!-- Header -->\n", "Verify", 0);
    var s := "          <!-- Header -->\n";
    AbsentCharNoContains("          <tr>\n", "Verify", 0);
    s := ExtendAfter(s, "          <tr>\n", "Verify");
    AbsentCharNoContains("            <td ", "Verify", 0);
    s := ExtendAfter(s, "            <td ", "Verify");
    AbsentCharNoContains("style=\"background-color: ", "Verify", 0);
    s := ExtendAfter(s, "style=\"background-color: ", "Verify");
  }
  lemma HeaderBandOpenSealsVerify(color: string)
    requires !Contains(color, "Verify")
    ensures Sealed(HeaderBandOpen(color), "Verify")
  {
    HeaderRowOpenSealsVerify();
    var s := HeaderRowOpen;
    s := ExtendAfter(s, color, "Verify");
    AbsentCharNoContains("; padding: 30px 40px; text-align: ", "Verify", 0);
    s := ExtendBefore(s, "; padding: 30px 40px; text-align: ", "Verify");
    AbsentCharNoContains("center;\">\n", "Verify", 0);
    s := ExtendAfter(s, "center;\">\n", "Verify");
    AbsentCharNoContains("              <h1 style=\"margin: 0; ", "Verify", 0);
    s := ExtendAfter(s, "              <h1 style=\"margin: 0; ", "Verify");
    AbsentCharNoContains("color: #ffffff; font-size: 28px;\">", "Verify", 0);
    s := ExtendAfter(s, "color: #ffffff; font-size: 28px;\">", "Verify");
  }
  lemma HeaderBandCloseSealsVerify()
    ensures Sealed(HeaderBandClose, "Verify")
  {
    AbsentCharNoContains("</h1>\n", "Verify", 0);
    var s := "</h1>\n";
    AbsentCharNoContains("            </td>\n", "Verify", 0);
    s := ExtendAfter(s, "            </td>\n", "Verify");
    AbsentCharNoContains("          </tr>\n", "Verify", 0);
    s := ExtendAfter(s, "          </tr>\n", "Verify");
    AbsentCharNoContains("\n", "Verify", 0);
    s := ExtendAfter(s, "\n", "Verify");
  }
  lemma HeaderBandSealsVerify(color: string, heading: string)
    requires !Contains(color, "Verify")
    requires !Contains(heading, "Verify")
    ensures Sealed(HeaderBand(color, heading), "Verify")
  {
    HeaderBandOpenSealsVerify(color);
    var s := HeaderBandOpen(color);
    s := ExtendAfter(s, heading, "Verify");
    HeaderBandCloseSealsVerify();
    s := ExtendBefore(s, HeaderBandClose, "Verify");
  }
  lemma ContentOpenSealsVerify()
    ensures Sealed(ContentOpen, "Verify")
  {
    AbsentCharNoContains("          <!-- Content -->\n", "Verify", 0);
    var s := "          <!-- Content -->\n";
    AbsentCharNoContains("          <tr>\n", "Verify", 0);
    s := ExtendAfter(s, "          <tr>\n", "Verify");
    AbsentCharNoContains("            <td style=\"padding: ", "Verify", 0);
    s := ExtendAfter(s, "            <td style=\"padding: ", "Verify");
    AbsentCharNoContains("40px;\">\n", "Verify", 0);
    s := ExtendAfter(s, "40px;\">\n", "Verify");
  }
  lemma DocumentTopSealsVerify(title: string, color: string, heading: string, intro: string)
    requires !Contains(title, "Verify")
    requires !Contains(color, "Verify")
    requires !Contains(heading, "Verify")
    requires Sealed(intro, "Verify")
    ensures Sealed(DocumentTop(title, color, heading, intro), "Verify")
  {
    DocumentHeadSealsVerify(title);
    var s := DocumentHead(title);
    BodyOpenSealsVerify();
    s := ExtendAfter(s, BodyOpen, "Verify");
    HeaderBandSealsVerify(color, heading);
    s := ExtendAfter(s, HeaderBand(color, heading), "Verify");
    ContentOpenSealsVerify();
    s := ExtendAfter(s, ContentOpen, "Verify");
    s := ExtendAfter(s, intro, "Verify");
  }
  lemma ResetBeforeGreetingLacksVerify()
    ensures !Contains(ResetBeforeGreeting, "Verify")
  {
    AbsentCharNoContains(ResetHeading, "Verify", 0);
    AbsentCharNoContains("#DC2626", "Verify", 0);
    AbsentCharNoContains(LockIcon, "Verify", 0);
    AbsentCharNoContains(" Password Reset", "Verify", 0);
    ContainsAppendIff(LockIcon, " Password Reset", "Verify");
    ResetIntroSealsVerify();
    DocumentTopSealsVerify(ResetHeading, "#DC2626", LockIcon + " Password Reset", ResetIntro);
  }
  lemma ResetInstructionsSealsVerify()
    ensures Sealed(ResetInstructions, "Verify")
  {
    AbsentCharNoContains("              </p>\n", "Verify", 0);
    var s := "              </p>\n";
    AbsentCharNoContains("              <p style=\"margin: 0 0 ", "Verify", 0);
    s := ExtendAfter(s, "              <p style=\"margin: 0 0 ", "Verify");
    AbsentCharNoContains("20px 0; color: #4B5563; font-size: ", "Verify", 0);
    s := ExtendAfter(s, "20px 0; color: #4B5563; font-size: ", "Verify");
    AbsentCharNoContains("16px; line-height: 1.5;\">\n", "Verify", 0);
    s := ExtendAfter(s, "16px; line-height: 1.5;\">\n", "Verify");
    AbsentCharNoContains("                You requested to ", "Verify", 0);
    s := ExtendAfter(s, "                You requested to ", "Verify");
    AbsentCharNoContains("reset your password. Please use the ", "Verify", 0);
    s := ExtendAfter(s, "reset your password. Please use the ", "Verify");
    AbsentCharNoContains("following code:\n", "Verify", 0);
    s := ExtendAfter(s, "following code:\n", "Verify");
    AbsentCharNoContains("              </p>\n", "Verify", 0);
    s := ExtendAfter(s, "              </p>\n", "Verify");
  }
  lemma ResetCodeBoxOpenSealsVerify()
    ensures Sealed(ResetCodeBoxOpen, "Verify")
  {
    AbsentCharNoContains("\n", "Verify", 0);
    var s := "\n";
    AbsentCharNoContains("              <!-- Code Box -->\n", "Verify", 0);
    s := ExtendAfter(s, "              <!-- Code Box -->\n", "Verify");
    AbsentCharNoContains("              <div ", "Verify", 0);
    s := ExtendAfter(s, "              <div ", "Verify");
    AbsentCharNoContains("style=\"background-color: #FEF2F2; ", "Verify", 0);
    s := ExtendAfter(s, "style=\"background-color: #FEF2F2; ", "Verify");
    AbsentCharNoContains("border: 2px solid #FCA5A5; ", "Verify", 0);
    s := ExtendAfter(s, "border: 2px solid #FCA5A5; ", "Verify");
    AbsentCharNoContains("border-radius: 8px; padding: 30px; ", "Verify", 0);
    s := ExtendAfter(s, "border-radius: 8px; padding: 30px; ", "Verify");
    AbsentCharNoContains("text-align: center; margin: 30px ", "Verify", 0);
    s := ExtendAfter(s, "text-align: center; margin: 30px ", "Verify");
    AbsentCharNoContains("0;\">\n", "Verify", 0);
    s := ExtendAfter(s, "0;\">\n", "Verify");
  }
  lemma ResetCodeStyleSealsVerify()
    ensures Sealed(ResetCodeStyle, "Verify")
  {
    AbsentCharNoContains("                <div ", "Verify", 0);
    var s := "                <div ";
    AbsentCharNoContains("style=\"font-size: 32px; ", "Verify", 0);
    s := ExtendAfter(s, "style=\"font-size: 32px; ", "Verify");
    AbsentCharNoContains("font-weight: bold; letter-spacing: ", "Verify", 0);
    s := ExtendAfter(s, "font-weight: bold; letter-spacing: ", "Verify");
    AbsentCharNoContains("8px; color: #DC2626; font-family: ", "Verify", 0);
    s := ExtendAfter(s, "8px; color: #DC2626; font-family: ", "Verify");
    AbsentCharNoContains("'Courier New', monospace;\">\n", "Verify", 0);
    s := ExtendAfter(s, "'Courier New', monospace;\">\n", "Verify");
    AbsentCharNoContains("                  ", "Verify", 0);
    s := ExtendAfter(s, "                  ", "Verify");
  }
  lemma ResetBetweenGreetingAndCodeLacksVerify()
    ensures !Contains(ResetBetweenGreetingAndCode, "Verify")
  {
    AbsentCharNoContains("\n", "Verify", 0);
    var s := "\n";
    ResetInstructionsSealsVerify();
    s := ExtendAfter(s, ResetInstructions, "Verify");
    ResetCodeBoxOpenSealsVerify();
    s := ExtendAfter(s, ResetCodeBoxOpen, "Verify");
    ResetCodeStyleSealsVerify();
    s := ExtendAfter(s, ResetCodeStyle, "Verify");
  }
  lemma ExpiryLeadSealsVerify()
    ensures Sealed(ExpiryLead, "Verify")
  {
    AbsentCharNoContains("\n", "Verify", 0);
    var s := "\n";
    AbsentCharNoContains("                </div>\n", "Verify", 0);
    s := ExtendAfter(s, "                </div>\n", "Verify");
    AbsentCharNoContains("              </div>\n", "Verify", 0);
    s := ExtendAfter(s, "              </div>\n", "Verify");
    AbsentCharNoContains("\n", "Verify", 0);
    s := ExtendAfter(s, "\n", "Verify");
    AbsentCharNoContains("              <p style=\"margin: ", "Verify", 0);
    s := ExtendAfter(s, "              <p style=\"margin: ", "Verify");
    AbsentCharNoContains("20px 0 0 0; color: #6B7280; ", "Verify", 0);
    s := ExtendAfter(s, "20px 0 0 0; color: #6B7280; ", "Verify");
    AbsentCharNoContains("font-size: 14px; line-height: ", "Verify", 0);
    s := ExtendAfter(s, "font-size: 14px; line-height: ", "Verify");
    AbsentCharNoContains("1.5;\">\n", "Verify", 0);
    s := ExtendAfter(s, "1.5;\">\n", "Verify");
    AbsentCharNoContains("                This code will ", "Verify", 0);
    s := ExtendAfter(s, "                This code will ", "Verify");
    AbsentCharNoContains("expire in <strong>", "Verify", 0);
    s := ExtendAfter(s, "expire in <strong>", "Verify");
  }
  lemma ExpiryTailSealsVerify()
    ensures Sealed(ExpiryTail, "Verify")
  {
    AbsentCharNoContains("</strong>.\n", "Verify", 0);
    var s := "</strong>.\n";
    AbsentCharNoContains("              </p>\n", "Verify", 0);
    s := ExtendAfter(s, "              </p>\n", "Verify");
    AbsentCharNoContains("              <p style=\"margin: ", "Verify", 0);
    s := ExtendAfter(s, "              <p style=\"margin: ", "Verify");
    AbsentCharNoContains("10px 0 0 0; color: #6B7280; ", "Verify", 0);
    s := ExtendAfter(s, "10px 0 0 0; color: #6B7280; ", "Verify");
    AbsentCharNoContains("font-size: 14px; line-height: ", "Verify", 0);
    s := ExtendAfter(s, "font-size: 14px; line-height: ", "Verify");
    AbsentCharNoContains("1.5;\">\n", "Verify", 0);
    s := ExtendAfter(s, "1.5;\">\n", "Verify");
  }
  lemma ExpiryParagraphSealsVerify()
    ensures Sealed(ExpiryParagraph, "Verify")
  {
    ExpiryLeadSealsVerify();
    var s := ExpiryLead;
    AbsentCharNoContains(ExpiryNotice, "Verify", 0);
    s := ExtendAfter(s, ExpiryNotice, "Verify");
    ExpiryTailSealsVerify();
    s := ExtendAfter(s, ExpiryTail, "Verify");
  }
  lemma ResetDisclaimerSealsVerify()
    ensures Sealed(ResetDisclaimer, "Verify")
  {
    AbsentCharNoContains("                If you didn't ", "Verify", 0);
    var s := "                If you didn't ";
    AbsentCharNoContains("request a password reset, please ", "Verify", 0);
    s := ExtendAfter(s, "request a password reset, please ", "Verify");
    AbsentCharNoContains("ignore this email and your password ", "Verify", 0);
    s := ExtendAfter(s, "ignore this email and your password ", "Verify");
    AbsentCharNoContains("will remain unchanged.\n", "Verify", 0);
    s := ExtendAfter(s, "will remain unchanged.\n", "Verify");
    AbsentCharNoContains("              </p>\n", "Verify", 0);
    s := ExtendAfter(s, "              </p>\n", "Verify");
    AbsentCharNoContains("\n", "Verify", 0);
    s := ExtendAfter(s, "\n", "Verify");
  }
  lemma SecurityNoticeOpenSealsVerify()
    ensures Sealed(SecurityNoticeOpen, "Verify")
  {
    AbsentCharNoContains("              <!-- Security Notice ", "Verify", 0);
    var s := "              <!-- Security Notice ";
    AbsentCharNoContains("-->\n", "Verify", 0);
    s := ExtendAfter(s, "-->\n", "Verify");
    AbsentCharNoContains("              <div ", "Verify", 0);
    s := ExtendAfter(s, "              <div ", "Verify");
    AbsentCharNoContains("style=\"background-color: #FFFBEB; ", "Verify", 0);
    s := ExtendAfter(s, "style=\"background-color: #FFFBEB; ", "Verify");
    AbsentCharNoContains("border-left: 4px solid #F59E0B; ", "Verify", 0);
    s := ExtendAfter(s, "border-left: 4px solid #F59E0B; ", "Verify");
    AbsentCharNoContains("padding: 15px; margin-top: 30px;\">\n", "Verify", 0);
    s := ExtendAfter(s, "padding: 15px; margin-top: 30px;\">\n", "Verify");
    AbsentCharNoContains("                <p style=\"margin: ", "Verify", 0);
    s := ExtendAfter(s, "                <p style=\"margin: ", "Verify");
    AbsentCharNoContains("0; color: #92400E; font-size: 13px; ", "Verify", 0);
    s := ExtendAfter(s, "0; color: #92400E; font-size: 13px; ", "Verify");
    AbsentCharNoContains("line-height: 1.5;\">\n", "Verify", 0);
    s := ExtendAfter(s, "line-height: 1.5;\">\n", "Verify");
    AbsentCharNoContains("                  <strong>", "Verify", 0);
    s := ExtendAfter(s, "                  <strong>", "Verify");
  }
  lemma SecurityNoticeCloseSealsVerify()
    ensures Sealed(SecurityNoticeClose, "Verify")
  {
    AbsentCharNoContains(":</strong> Never share your ", "Verify", 0);
    var s := ":</strong> Never share your ";
    AbsentCharNoContains("password reset code with anyone. ", "Verify", 0);
    s := ExtendAfter(s, "password reset code with anyone. ", "Verify");
    AbsentCharNoContains("Sponsoration staff will never ask ", "Verify", 0);
    s := ExtendAfter(s, "Sponsoration staff will never ask ", "Verify");
    AbsentCharNoContains("for this code.\n", "Verify", 0);
    s := ExtendAfter(s, "for this code.\n", "Verify");
    AbsentCharNoContains("                </p>\n", "Verify", 0);
    s := ExtendAfter(s, "                </p>\n", "Verify");
    AbsentCharNoContains("              </div>\n", "Verify", 0);
    s := ExtendAfter(s, "              </div>\n", "Verify");
    AbsentCharNoContains("            </td>\n", "Verify", 0);
    s := ExtendAfter(s, "            </td>\n", "Verify");
    AbsentCharNoContains("          </tr>\n", "Verify", 0);
    s := ExtendAfter(s, "          </tr>\n", "Verify");
    AbsentCharNoContains("\n", "Verify", 0);
    s := ExtendAfter(s, "\n", "Verify");
  }
  lemma SecurityNoticeSealsVerify()
    ensures Sealed(SecurityNotice, "Verify")
  {
    SecurityNoticeOpenSealsVerify();
    var s := SecurityNoticeOpen;
    AbsentCharNoContains(SecurityTip, "Verify", 0);
    s := ExtendAfter(s, SecurityTip, "Verify");
    SecurityNoticeCloseSealsVerify();
    s := ExtendAfter(s, SecurityNoticeClose, "Verify");
  }
  lemma FooterOpenSealsVerify()
    ensures Sealed(FooterOpen, "Verify")
  {
    AbsentCharNoContains("          <!-- Footer -->\n", "Verify", 0);
    var s := "          <!-- Footer -->\n";
    AbsentCharNoContains("          <tr>\n", "Verify", 0);
    s := ExtendAfter(s, "          <tr>\n", "Verify");
    AbsentCharNoContains("            <td ", "Verify", 0);
    s := ExtendAfter(s, "            <td ", "Verify");
    AbsentCharNoContains("style=\"background-color: #F9FAFB; ", "Verify", 0);
    s := ExtendAfter(s, "style=\"background-color: #F9FAFB; ", "Verify");
    AbsentCharNoContains("padding: 30px 40px; text-align: ", "Verify", 0);
    s := ExtendAfter(s, "padding: 30px 40px; text-align: ", "Verify");
    AbsentCharNoContains("center; border-top: 1px solid ", "Verify", 0);
    s := ExtendAfter(s, "center; border-top: 1px solid ", "Verify");
    AbsentCharNoContains("#E5E7EB;\">\n", "Verify", 0);
    s := ExtendAfter(s, "#E5E7EB;\">\n", "Verify");
    AbsentCharNoContains("              <p style=\"margin: 0; ", "Verify", 0);
    s := ExtendAfter(s, "              <p style=\"margin: 0; ", "Verify");
    AbsentCharNoContains("color: #9CA3AF; font-size: 12px;\">\n", "Verify", 0);
    s := ExtendAfter(s, "color: #9CA3AF; font-size: 12px;\">\n", "Verify");
    AbsentCharNoContains("                ", "Verify", 0);
    s := ExtendAfter(s, "                ", "Verify");
    AbsentCharNoContains(CopyrightSign, "Verify", 0);
    s := ExtendAfter(s, CopyrightSign, "Verify");
  }
  lemma ResetBeforeYearLacksVerify()
    ensures !Contains(ResetBeforeYear, "Verify")
  {
    ExpiryParagraphSealsVerify();
    var s := ExpiryParagraph;
    ResetDisclaimerSealsVerify();
    s := ExtendAfter(s, ResetDisclaimer, "Verify");
    SecurityNoticeSealsVerify();
    s := ExtendAfter(s, SecurityNotice, "Verify");
    FooterOpenSealsVerify();
    s := ExtendAfter(s, FooterOpen, "Verify");
  }
  lemma FooterCloseSealsVerify()
    ensures Sealed(FooterClose, "Verify")
  {
    AbsentCharNoContains("\n", "Verify", 0);
    var s := "\n";
    AbsentCharNoContains("              </p>\n", "Verify", 0);
    s := ExtendAfter(s, "              </p>\n", "Verify");
    AbsentCharNoContains("            </td>\n", "Verify", 0);
    s := ExtendAfter(s, "            </td>\n", "Verify");
    AbsentCharNoContains("          </tr>\n", "Verify", 0);
    s := ExtendAfter(s, "          </tr>\n", "Verify");
  }
  lemma TableCloseSealsVerify()
    ensures Sealed(TableClose, "Verify")
  {
    AbsentCharNoContains("        ", "Verify", 0);
    var s := "        ";
    AbsentCharNoContains(TableCloseTag, "Verify", 0);
    s := ExtendAfter(s, TableCloseTag, "Verify");
    AbsentCharNoContains("\n", "Verify", 0);
    s := ExtendAfter(s, "\n", "Verify");
    AbsentCharNoContains("      </td>\n", "Verify", 0);
    s := ExtendAfter(s, "      </td>\n", "Verify");
    AbsentCharNoContains("    </tr>\n", "Verify", 0);
    s := ExtendAfter(s, "    </tr>\n", "Verify");
    AbsentCharNoContains("  ", "Verify", 0);
    s := ExtendAfter(s, "  ", "Verify");
    AbsentCharNoContains(TableCloseTag, "Verify", 0);
    s := ExtendAfter(s, TableCloseTag, "Verify");
    AbsentCharNoContains("\n", "Verify", 0);
    s := ExtendAfter(s, "\n", "Verify");
    AbsentCharNoContains(BodyCloseTag, "Verify", 0);
    s := ExtendAfter(s, BodyCloseTag, "Verify");
    AbsentCharNoContains("\n", "Verify", 0);
    s := ExtendAfter(s, "\n", "Verify");
  }
  lemma DocumentClosingSealsVerify()
    ensures Sealed(DocumentClosing, "Verify")
  {
    TableCloseSealsVerify();
    var s := TableClose;
    AbsentCharNoContains(HtmlClose, "Verify", 0);
    s := ExtendAfter(s, HtmlClose, "Verify");
    AbsentCharNoContains(TrailingSpace, "Verify", 0);
    s := ExtendAfter(s, TrailingSpace, "Verify");
  }
  lemma FooterAfterYearLacksVerify()
    ensures !Contains(FooterAfterYear, "Verify")
  {
    AbsentCharNoContains(RightsReserved, "Verify", 0);
    var s := RightsReserved;
    FooterCloseSealsVerify();
    s := ExtendAfter(s, FooterClose, "Verify");
    DocumentClosingSealsVerify();
    s := ExtendAfter(s, DocumentClosing, "Verify");
  }
  lemma GreetingOpenSealsWelcome()
    ensures Sealed(GreetingOpen, "Welcome")
  {
    AbsentCharNoContains("</h2>\n", "Welcome", 0);
    var s := "</h2>\n";
    AbsentCharNoContains("              <p style=\"margin: 0 0 ", "Welcome", 0);
    s := ExtendAfter(s, "              <p style=\"margin: 0 0 ", "Welcome");
    AbsentCharNoContains("20px 0; color: #4B5563; font-size: ", "Welcome", 0);
    s := ExtendAfter(s, "20px 0; color: #4B5563; font-size: ", "Welcome");
    AbsentCharNoContains("16px; line-height: 1.5;\">\n", "Welcome", 0);
    s := ExtendAfter(s, "16px; line-height: 1.5;\">\n", "Welcome");
    AbsentCharNoContains("                ", "Welcome", 0);
    s := ExtendAfter(s, "                ", "Welcome");
  }
  lemma ResetIntroSealsWelcome()
    ensures Sealed(ResetIntro, "Welcome")
  {
    SubheadingOpenSealsWelcome();
    var s := SubheadingOpen;
    AbsentCharNoContains(ResetHeading, "Welcome", 0);
    s := ExtendAfter(s, ResetHeading, "Welcome");
    GreetingOpenSealsWelcome();
    s := ExtendAfter(s, GreetingOpen, "Welcome");
  }
  lemma ResetBeforeGreetingLacksWelcome()
    ensures !Contains(ResetBeforeGreeting, "Welcome")
  {
    AbsentCharNoContains(ResetHeading, "Welcome", 0);
    AbsentCharNoContains("#DC2626", "Welcome", 0);
    AbsentCharNoContains(LockIcon, "Welcome", 0);
    AbsentCharNoContains(" Password Reset", "Welcome", 0);
    ContainsAppendIff(LockIcon, " Password Reset", "Welcome");
    ResetIntroSealsWelcome();
    DocumentTopSealsWelcome(ResetHeading, "#DC2626", LockIcon + " Password Reset", ResetIntro);
  }
  lemma ResetInstructionsSealsWelcome()
    ensures Sealed(ResetInstructions, "Welcome")
  {
    AbsentCharNoContains("              </p>\n", "Welcome", 0);
    var s := "              </p>\n";
    AbsentCharNoContains("              <p style=\"margin: 0 0 ", "Welcome", 0);
    s := ExtendAfter(s, "              <p style=\"margin: 0 0 ", "Welcome");
    AbsentCharNoContains("20px 0; color: #4B5563; font-size: ", "Welcome", 0);
    s := ExtendAfter(s, "20px 0; color: #4B5563; font-size: ", "Welcome");
    AbsentCharNoContains("16px; line-height: 1.5;\">\n", "Welcome", 0);
    s := ExtendAfter(s, "16px; line-height: 1.5;\">\n", "Welcome");
    AbsentCharNoContains("                You requested to ", "Welcome", 0);
    s := ExtendAfter(s, "                You requested to ", "Welcome");
    AbsentCharNoContains("reset your password. Please use the ", "Welcome", 0);
    s := ExtendAfter(s, "reset your password. Please use the ", "Welcome");
    AbsentCharNoContains("following code:\n", "Welcome", 0);
    s := ExtendAfter(s, "following code:\n", "Welcome");
    AbsentCharNoContains("              </p>\n", "Welcome", 0);
    s := ExtendAfter(s, "              </p>\n", "Welcome");
  }
  lemma ResetCodeBoxOpenSealsWelcome()
    ensures Sealed(ResetCodeBoxOpen, "Welcome")
  {
    AbsentCharNoContains("\n", "Welcome", 0);
    var s := "\n";
    AbsentCharNoContains("              <!-- Code Box -->\n", "Welcome", 0);
    s := ExtendAfter(s, "              <!-- Code Box -->\n", "Welcome");
    AbsentCharNoContains("              <div ", "Welcome", 0);
    s := ExtendAfter(s, "              <div ", "Welcome");
    AbsentCharNoContains("style=\"background-color: #FEF2F2; ", "Welcome", 0);
    s := ExtendAfter(s, "style=\"background-color: #FEF2F2; ", "Welcome");
    AbsentCharNoContains("border: 2px solid #FCA5A5; ", "Welcome", 0);
    s := ExtendAfter(s, "border: 2px solid #FCA5A5; ", "Welcome");
    AbsentCharNoContains("border-radius: 8px; padding: 30px; ", "Welcome", 0);
    s := ExtendAfter(s, "border-radius: 8px; padding: 30px; ", "Welcome");
    AbsentCharNoContains("text-align: center; margin: 30px ", "Welcome", 0);
    s := ExtendAfter(s, "text-align: center; margin: 30px ", "Welcome");
    AbsentCharNoContains("0;\">\n", "Welcome", 0);
    s := ExtendAfter(s, "0;\">\n", "Welcome");
  }
  lemma ResetCodeStyleSealsWelcome()
    ensures Sealed(ResetCodeStyle, "Welcome")
  {
    AbsentCharNoContains("                <div ", "Welcome", 0);
    var s := "                <div ";
    AbsentCharNoContains("style=\"font-size: 32px; ", "Welcome", 0);
    s := ExtendAfter(s, "style=\"font-size: 32px; ", "Welcome");
    AbsentCharNoContains("font-weight: bold; letter-spacing: ", "Welcome", 0);
    s := ExtendAfter(s, "font-weight: bold; letter-spacing: ", "Welcome");
    AbsentCharNoContains("8px; color: #DC2626; font-family: ", "Welcome", 0);
    s := ExtendAfter(s, "8px; color: #DC2626; font-family: ", "Welcome");
    AbsentCharNoContains("'Courier New', monospace;\">\n", "Welcome", 0);
    s := ExtendAfter(s, "'Courier New', monospace;\">\n", "Welcome");
    AbsentCharNoContains("                  ", "Welcome", 0);
    s := ExtendAfter(s, "                  ", "Welcome");
  }
  lemma ResetBetweenGreetingAndCodeLacksWelcome()
    ensures !Contains(ResetBetweenGreetingAndCode, "Welcome")
  {
    AbsentCharNoContains("\n", "Welcome", 0);
    var s := "\n";
    ResetInstructionsSealsWelcome();
    s := ExtendAfter(s, ResetInstructions, "Welcome");
    ResetCodeBoxOpenSealsWelcome();
    s := ExtendAfter(s, ResetCodeBoxOpen, "Welcome");
    ResetCodeStyleSealsWelcome();
    s := ExtendAfter(s, ResetCodeStyle, "Welcome");
  }
  lemma ResetDisclaimerSealsWelcome()
    ensures Sealed(ResetDisclaimer, "Welcome")
  {
    AbsentCharNoContains("                If you didn't ", "Welcome", 0);
    var s := "                If you didn't ";
    AbsentCharNoContains("request a password reset, please ", "Welcome", 0);
    s := ExtendAfter(s, "request a password reset, please ", "Welcome");
    AbsentCharNoContains("ignore this email and your password ", "Welcome", 0);
    s := ExtendAfter(s, "ignore this email and your password ", "Welcome");
    AbsentCharNoContains("will remain unchanged.\n", "Welcome", 0);
    s := ExtendAfter(s, "will remain unchanged.\n", "Welcome");
    AbsentCharNoContains("              </p>\n", "Welcome", 0);
    s := ExtendAfter(s, "              </p>\n", "Welcome");
    AbsentCharNoContains("\n", "Welcome", 0);
    s := ExtendAfter(s, "\n", "Welcome");
  }
  lemma SecurityNoticeOpenSealsWelcome()
    ensures Sealed(SecurityNoticeOpen, "Welcome")
  {
    AbsentCharNoContains("              <!-- Security Notice ", "Welcome", 0);
    var s := "              <!-- Security Notice ";
    AbsentCharNoContains("-->\n", "Welcome", 0);
    s := ExtendAfter(s, "-->\n", "Welcome");
    AbsentCharNoContains("              <div ", "Welcome", 0);
    s := ExtendAfter(s, "              <div ", "Welcome");
    AbsentCharNoContains("style=\"background-color: #FFFBEB; ", "Welcome", 0);
    s := ExtendAfter(s, "style=\"background-color: #FFFBEB; ", "Welcome");
    AbsentCharNoContains("border-left: 4px solid #F59E0B; ", "Welcome", 0);
    s := ExtendAfter(s, "border-left: 4px solid #F59E0B; ", "Welcome");
    AbsentCharNoContains("padding: 15px; margin-top: 30px;\">\n", "Welcome", 0);
    s := ExtendAfter(s, "padding: 15px; margin-top: 30px;\">\n", "Welcome");
    AbsentCharNoContains("                <p style=\"margin: ", "Welcome", 0);
    s := ExtendAfter(s, "                <p style=\"margin: ", "Welcome");
    AbsentCharNoContains("0; color: #92400E; font-size: 13px; ", "Welcome", 0);
    s := ExtendAfter(s, "0; color: #92400E; font-size: 13px; ", "Welcome");
    AbsentCharNoContains("line-height: 1.5;\">\n", "Welcome", 0);
    s := ExtendAfter(s, "line-height: 1.5;\">\n", "Welcome");
    AbsentCharNoContains("                  <strong>", "Welcome", 0);
    s := ExtendAfter(s, "                  <strong>", "Welcome");
  }
  lemma SecurityNoticeCloseSealsWelcome()
    ensures Sealed(SecurityNoticeClose, "Welcome")
  {
    AbsentCharNoContains(":</strong> Never share your ", "Welcome", 0);
    var s := ":</strong> Never share your ";
    AbsentCharNoContains("password reset code with anyone. ", "Welcome", 0);
    s := ExtendAfter(s, "password reset code with anyone. ", "Welcome");
    AbsentCharNoContains("Sponsoration staff will never ask ", "Welcome", 0);
    s := ExtendAfter(s, "Sponsoration staff will never ask ", "Welcome");
    AbsentCharNoContains("for this code.\n", "Welcome", 0);
    s := ExtendAfter(s, "for this code.\n", "Welcome");
    AbsentCharNoContains("                </p>\n", "Welcome", 0);
    s := ExtendAfter(s, "                </p>\n", "Welcome");
    AbsentCharNoContains("              </div>\n", "Welcome", 0);
    s := ExtendAfter(s, "              </div>\n", "Welcome");
    AbsentCharNoContains("            </td>\n", "Welcome", 0);
    s := ExtendAfter(s, "            </td>\n", "Welcome");
    AbsentCharNoContains("          </tr>\n", "Welcome", 0);
    s := ExtendAfter(s, "          </tr>\n", "Welcome");
    AbsentCharNoContains("\n", "Welcome", 0);
    s := ExtendAfter(s, "\n", "Welcome");
  }
  lemma SecurityNoticeSealsWelcome()
    ensures Sealed(SecurityNotice, "Welcome")
  {
    SecurityNoticeOpenSealsWelcome();
    var s := SecurityNoticeOpen;
    AbsentCharNoContains(SecurityTip, "Welcome", 0);
    s := ExtendAfter(s, SecurityTip, "Welcome");
    SecurityNoticeCloseSealsWelcome();
    s := ExtendAfter(s, SecurityNoticeClose, "Welcome");
  }
  lemma ResetBeforeYearLacksWelcome()
    ensures !Contains(ResetBeforeYear, "Welcome")
  {
    ExpiryParagraphSealsWelcome();
    var s := ExpiryParagraph;
    ResetDisclaimerSealsWelcome();
    s := ExtendAfter(s, ResetDisclaimer, "Welcome");
    SecurityNoticeSealsWelcome();
    s := ExtendAfter(s, SecurityNotice, "Welcome");
    FooterOpenSealsWelcome();
    s := ExtendAfter(s, FooterOpen, "Welcome");
  }
  lemma GreetingOpenSealsVerb()
    ensures Sealed(GreetingOpen, "%s")
  {
    AbsentCharNoContains("</h2>\n", "%s", 0);
    var s := "</h2>\n";
    AbsentCharNoContains("              <p style=\"margin: 0 0 ", "%s", 0);
    s := ExtendAfter(s, "              <p style=\"margin: 0 0 ", "%s");
    AbsentCharNoContains("20px 0; color: #4B5563; font-size: ", "%s", 0);
    s := ExtendAfter(s, "20px 0; color: #4B5563; font-size: ", "%s");
    AbsentCharNoContains("16px; line-height: 1.5;\">\n", "%s", 0);
    s := ExtendAfter(s, "16px; line-height: 1.5;\">\n", "%s");
    AbsentCharNoContains("                ", "%s", 0);
    s := ExtendAfter(s, "                ", "%s");
  }
  lemma ResetIntroSealsVerb()
    ensures Sealed(ResetIntro, "%s")
  {
    SubheadingOpenSealsVerb();
    var s := SubheadingOpen;
    AbsentCharNoContains(ResetHeading, "%s", 0);
    s := ExtendAfter(s, ResetHeading, "%s");
    GreetingOpenSealsVerb();
    s := ExtendAfter(s, GreetingOpen, "%s");
  }
  lemma ResetBeforeGreetingLacksVerb()
    ensures !Contains(ResetBeforeGreeting, "%s")
  {
    AbsentCharNoContains(ResetHeading, "%s", 0);
    AbsentCharNoContains("#DC2626", "%s", 0);
    AbsentCharNoContains(LockIcon, "%s", 0);
    AbsentCharNoContains(" Password Reset", "%s", 0);
    ContainsAppendIff(LockIcon, " Password Reset", "%s");
    ResetIntroSealsVerb();
    DocumentTopSealsVerb(ResetHeading, "#DC2626", LockIcon + " Password Reset", ResetIntro);
  }
  lemma ResetInstructionsSealsVerb()
    ensures Sealed(ResetInstructions, "%s")
  {
    AbsentCharNoContains("              </p>\n", "%s", 0);
    var s := "              </p>\n";
    AbsentCharNoContains("              <p style=\"margin: 0 0 ", "%s", 0);
    s := ExtendAfter(s, "              <p style=\"margin: 0 0 ", "%s");
    AbsentCharNoContains("20px 0; color: #4B5563; font-size: ", "%s", 0);
    s := ExtendAfter(s, "20px 0; color: #4B5563; font-size: ", "%s");
    AbsentCharNoContains("16px; line-height: 1.5;\">\n", "%s", 0);
    s := ExtendAfter(s, "16px; line-height: 1.5;\">\n", "%s");
    AbsentCharNoContains("                You requested to ", "%s", 0);
    s := ExtendAfter(s, "                You requested to ", "%s");
    AbsentCharNoContains("reset your password. Please use the ", "%s", 0);
    s := ExtendAfter(s, "reset your password. Please use the ", "%s");
    AbsentCharNoContains("following code:\n", "%s", 0);
    s := ExtendAfter(s, "following code:\n", "%s");
    AbsentCharNoContains("              </p>\n", "%s", 0);
    s := ExtendAfter(s, "              </p>\n", "%s");
  }
  lemma ResetCodeBoxOpenSealsVerb()
    ensures Sealed(ResetCodeBoxOpen, "%s")
  {
    AbsentCharNoContains("\n", "%s", 0);
    var s := "\n";
    AbsentCharNoContains("              <!-- Code Box -->\n", "%s", 0);
    s := ExtendAfter(s, "              <!-- Code Box -->\n", "%s");
    AbsentCharNoContains("              <div ", "%s", 0);
    s := ExtendAfter(s, "              <div ", "%s");
    AbsentCharNoContains("style=\"background-color: #FEF2F2; ", "%s", 0);
    s := ExtendAfter(s, "style=\"background-color: #FEF2F2; ", "%s");
    AbsentCharNoContains("border: 2px solid #FCA5A5; ", "%s", 0);
    s := ExtendAfter(s, "border: 2px solid #FCA5A5; ", "%s");
    AbsentCharNoContains("border-radius: 8px; padding: 30px; ", "%s", 0);
    s := ExtendAfter(s, "border-radius: 8px; padding: 30px; ", "%s");
    AbsentCharNoContains("text-align: center; margin: 30px ", "%s", 0);
    s := ExtendAfter(s, "text-align: center; margin: 30px ", "%s");
    AbsentCharNoContains("0;\">\n", "%s", 0);
    s := ExtendAfter(s, "0;\">\n", "%s");
  }
  lemma ResetCodeStyleSealsVerb()
    ensures Sealed(ResetCodeStyle, "%s")
  {
    AbsentCharNoContains("                <div ", "%s", 0);
    var s := "                <div ";
    AbsentCharNoContains("style=\"font-size: 32px; ", "%s", 0);
    s := ExtendAfter(s, "style=\"font-size: 32px; ", "%s");
    AbsentCharNoContains("font-weight: bold; letter-spacing: ", "%s", 0);
    s := ExtendAfter(s, "font-weight: bold; letter-spacing: ", "%s");
    AbsentCharNoContains("8px; color: #DC2626; font-family: ", "%s", 0);
    s := ExtendAfter(s, "8px; color: #DC2626; font-family: ", "%s");
    AbsentCharNoContains("'Courier New', monospace;\">\n", "%s", 0);
    s := ExtendAfter(s, "'Courier New', monospace;\">\n", "%s");
    AbsentCharNoContains("                  ", "%s", 0);
    s := ExtendAfter(s, "                  ", "%s");
  }
  lemma ResetBetweenGreetingAndCodeLacksVerb()
    ensures !Contains(ResetBetweenGreetingAndCode, "%s")
  {
    AbsentCharNoContains("\n", "%s", 0);
    var s := "\n";
    ResetInstructionsSealsVerb();
    s := ExtendAfter(s, ResetInstructions, "%s");
    ResetCodeBoxOpenSealsVerb();
    s := ExtendAfter(s, ResetCodeBoxOpen, "%s");
    ResetCodeStyleSealsVerb();
    s := ExtendAfter(s, ResetCodeStyle, "%s");
  }
  lemma ResetDisclaimerSealsVerb()
    ensures Sealed(ResetDisclaimer, "%s")
  {
    AbsentCharNoContains("                If you didn't ", "%s", 0);
    var s := "                If you didn't ";
    AbsentCharNoContains("request a password reset, please ", "%s", 0);
    s := ExtendAfter(s, "request a password reset, please ", "%s");
    AbsentCharNoContains("ignore this email and your password ", "%s", 0);
    s := ExtendAfter(s, "ignore this email and your password ", "%s");
    AbsentCharNoContains("will remain unchanged.\n", "%s", 0);
    s := ExtendAfter(s, "will remain unchanged.\n", "%s");
    AbsentCharNoContains("              </p>\n", "%s", 0);
    s := ExtendAfter(s, "              </p>\n", "%s");
    AbsentCharNoContains("\n", "%s", 0);
    s := ExtendAfter(s, "\n", "%s");
  }
  lemma SecurityNoticeOpenSealsVerb()
    ensures Sealed(SecurityNoticeOpen, "%s")
  {
    AbsentCharNoContains("              <!-- Security Notice ", "%s", 0);
    var s := "              <!-- Security Notice ";
    AbsentCharNoContains("-->\n", "%s", 0);
    s := ExtendAfter(s, "-->\n", "%s");
    AbsentCharNoContains("              <div ", "%s", 0);
    s := ExtendAfter(s, "              <div ", "%s");
    AbsentCharNoContains("style=\"background-color: #FFFBEB; ", "%s", 0);
    s := ExtendAfter(s, "style=\"background-color: #FFFBEB; ", "%s");
    AbsentCharNoContains("border-left: 4px solid #F59E0B; ", "%s", 0);
    s := ExtendAfter(s, "border-left: 4px solid #F59E0B; ", "%s");
    AbsentCharNoContains("padding: 15px; margin-top: 30px;\">\n", "%s", 0);
    s := ExtendAfter(s, "padding: 15px; margin-top: 30px;\">\n", "%s");
    AbsentCharNoContains("                <p style=\"margin: ", "%s", 0);
    s := ExtendAfter(s, "                <p style=\"margin: ", "%s");
    AbsentCharNoContains("0; color: #92400E; font-size: 13px; ", "%s", 0);
    s := ExtendAfter(s, "0; color: #92400E; font-size: 13px; ", "%s");
    AbsentCharNoContains("line-height: 1.5;\">\n", "%s", 0);
    s := ExtendAfter(s, "line-height: 1.5;\">\n", "%s");
    AbsentCharNoContains("                  <strong>", "%s", 0);
    s := ExtendAfter(s, "                  <strong>", "%s");
  }
  lemma SecurityNoticeCloseSealsVerb()
    ensures Sealed(SecurityNoticeClose, "%s")
  {
    AbsentCharNoContains(":</strong> Never share your ", "%s", 0);
    var s := ":</strong> Never share your ";
    AbsentCharNoContains("password reset code with anyone. ", "%s", 0);
    s := ExtendAfter(s, "password reset code with anyone. ", "%s");
    AbsentCharNoContains("Sponsoration staff will never ask ", "%s", 0);
    s := ExtendAfter(s, "Sponsoration staff will never ask ", "%s");
    AbsentCharNoContains("for this code.\n", "%s", 0);
    s := ExtendAfter(s, "for this code.\n", "%s");
    AbsentCharNoContains("                </p>\n", "%s", 0);
    s := ExtendAfter(s, "                </p>\n", "%s");
    AbsentCharNoContains("              </div>\n", "%s", 0);
    s := ExtendAfter(s, "              </div>\n", "%s");
    AbsentCharNoContains("            </td>\n", "%s", 0);
    s := ExtendAfter(s, "            </td>\n", "%s");
    AbsentCharNoContains("          </tr>\n", "%s", 0);
    s := ExtendAfter(s, "          </tr>\n", "%s");
    AbsentCharNoContains("\n", "%s", 0);
    s := ExtendAfter(s, "\n", "%s");
  }
  lemma SecurityNoticeSealsVerb()
    ensures Sealed(SecurityNotice, "%s")
  {
    SecurityNoticeOpenSealsVerb();
    var s := SecurityNoticeOpen;
    AbsentCharNoContains(SecurityTip, "%s", 0);
    s := ExtendAfter(s, SecurityTip, "%s");
    SecurityNoticeCloseSealsVerb();
    s := ExtendAfter(s, SecurityNoticeClose, "%s");
  }
  lemma ResetBeforeYearLacksVerb()
    ensures !Contains(ResetBeforeYear, "%s")
  {
    ExpiryParagraphSealsVerb();
    var s := ExpiryParagraph;
    ResetDisclaimerSealsVerb();
    s := ExtendAfter(s, ResetDisclaimer, "%s");
    SecurityNoticeSealsVerb();
    s := ExtendAfter(s, SecurityNotice, "%s");
    FooterOpenSealsVerb();
    s := ExtendAfter(s, FooterOpen, "%s");
  }
  lemma WelcomeIntroSealsVerify()
    ensures Sealed(WelcomeIntro, "Verify")
  {
    SubheadingOpenSealsVerify();
    var s := SubheadingOpen;
    AbsentCharNoContains(HiPrefix, "Verify", 0);
    s := ExtendAfter(s, HiPrefix, "Verify");
  }
  lemma WelcomeBeforeNameLacksVerify()
    ensures !Contains(WelcomeBeforeName, "Verify")
  {
    AbsentCharNoContains(WelcomeTitle, "Verify", 0);
    AbsentCharNoContains("#10B981", "Verify", 0);
    AbsentCharNoContains(PartyIcon, "Verify", 0);
    AbsentCharNoContains(" Welcome to Sponsoration!", "Verify", 0);
    ContainsAppendIff(PartyIcon, " Welcome to Sponsoration!", "Verify");
    WelcomeIntroSealsVerify();
    DocumentTopSealsVerify(WelcomeTitle, "#10B981", PartyIcon + " Welcome to Sponsoration!", WelcomeIntro);
  }
  lemma WelcomeThanksSealsVerify()
    ensures Sealed(WelcomeThanks, "Verify")
  {
    AbsentCharNoContains("              <p style=\"margin: 0 0 ", "Verify", 0);
    var s := "              <p style=\"margin: 0 0 ";
    AbsentCharNoContains("20px 0; color: #4B5563; font-size: ", "Verify", 0);
    s := ExtendAfter(s, "20px 0; color: #4B5563; font-size: ", "Verify");
    AbsentCharNoContains("16px; line-height: 1.5;\">\n", "Verify", 0);
    s := ExtendAfter(s, "16px; line-height: 1.5;\">\n", "Verify");
    AbsentCharNoContains("                Thank you for ", "Verify", 0);
    s := ExtendAfter(s, "                Thank you for ", "Verify");
    AbsentCharNoContains("joining our community! We're ", "Verify", 0);
    s := ExtendAfter(s, "joining our community! We're ", "Verify");
    AbsentCharNoContains("excited to have you on board.\n", "Verify", 0);
    s := ExtendAfter(s, "excited to have you on board.\n", "Verify");
    AbsentCharNoContains("              </p>\n", "Verify", 0);
    s := ExtendAfter(s, "              </p>\n", "Verify");
  }
  lemma WelcomeGetStartedSealsVerify()
    ensures Sealed(WelcomeGetStarted, "Verify")
  {
    AbsentCharNoContains("              <p style=\"margin: 0 0 ", "Verify", 0);
    var s := "              <p style=\"margin: 0 0 ";
    AbsentCharNoContains("30px 0; color: #4B5563; font-size: ", "Verify", 0);
    s := ExtendAfter(s, "30px 0; color: #4B5563; font-size: ", "Verify");
    AbsentCharNoContains("16px; line-height: 1.5;\">\n", "Verify", 0);
    s := ExtendAfter(s, "16px; line-height: 1.5;\">\n", "Verify");
    AbsentCharNoContains("                Get started by ", "Verify", 0);
    s := ExtendAfter(s, "                Get started by ", "Verify");
    AbsentCharNoContains("completing your profile and ", "Verify", 0);
    s := ExtendAfter(s, "completing your profile and ", "Verify");
    AbsentCharNoContains("exploring the platform.\n", "Verify", 0);
    s := ExtendAfter(s, "exploring the platform.\n", "Verify");
    AbsentCharNoContains("              </p>\n", "Verify", 0);
    s := ExtendAfter(s, "              </p>\n", "Verify");
  }
  lemma ButtonAreaOpenSealsVerify()
    ensures Sealed(ButtonAreaOpen, "Verify")
  {
    AbsentCharNoContains("\n", "Verify", 0);
    var s := "\n";
    AbsentCharNoContains("              <!-- CTA Button -->\n", "Verify", 0);
    s := ExtendAfter(s, "              <!-- CTA Button -->\n", "Verify");
    AbsentCharNoContains("              <div ", "Verify", 0);
    s := ExtendAfter(s, "              <div ", "Verify");
    AbsentCharNoContains("style=\"text-align: center; margin: ", "Verify", 0);
    s := ExtendAfter(s, "style=\"text-align: center; margin: ", "Verify");
    AbsentCharNoContains("30px 0;\">\n", "Verify", 0);
    s := ExtendAfter(s, "30px 0;\">\n", "Verify");
    AbsentCharNoContains("                ", "Verify", 0);
    s := ExtendAfter(s, "                ", "Verify");
  }
  lemma WelcomeMessageSealsVerify()
    ensures Sealed(WelcomeMessage, "Verify")
  {
    AbsentCharNoContains("</h2>\n", "Verify", 0);
    var s := "</h2>\n";
    WelcomeThanksSealsVerify();
    s := ExtendAfter(s, WelcomeThanks, "Verify");
    WelcomeGetStartedSealsVerify();
    s := ExtendAfter(s, WelcomeGetStarted, "Verify");
    ButtonAreaOpenSealsVerify();
    s := ExtendAfter(s, ButtonAreaOpen, "Verify");
  }
  lemma WelcomeBeforeDashboardLinkLacksVerify()
    ensures !Contains(WelcomeBeforeDashboardLink, "Verify")
  {
    AbsentCharNoContains(",", "Verify", 0);
    var s := ",";
    WelcomeMessageSealsVerify();
    s := ExtendAfter(s, WelcomeMessage, "Verify");
    AbsentCharNoContains(HrefOpen, "Verify", 0);
    s := ExtendAfter(s, HrefOpen, "Verify");
  }
  lemma DashboardButtonOpenSealsVerify()
    ensures Sealed(DashboardButtonOpen, "Verify")
  {
    AbsentCharNoContains("\n", "Verify", 0);
    var s := "\n";
    AbsentCharNoContains("                   style=\"display: ", "Verify", 0);
    s := ExtendAfter(s, "                   style=\"display: ", "Verify");
    AbsentCharNoContains("inline-block; background-color: ", "Verify", 0);
    s := ExtendAfter(s, "inline-block; background-color: ", "Verify");
    AbsentCharNoContains("#10B981; color: #ffffff; ", "Verify", 0);
    s := ExtendAfter(s, "#10B981; color: #ffffff; ", "Verify");
    AbsentCharNoContains("text-decoration: none; padding: ", "Verify", 0);
    s := ExtendAfter(s, "text-decoration: none; padding: ", "Verify");
    AbsentCharNoContains("15px 30px; border-radius: 6px; ", "Verify", 0);
    s := ExtendAfter(s, "15px 30px; border-radius: 6px; ", "Verify");
    AbsentCharNoContains("font-weight: bold; font-size: ", "Verify", 0);
    s := ExtendAfter(s, "font-weight: bold; font-size: ", "Verify");
    AbsentCharNoContains("16px;\">\n", "Verify", 0);
    s := ExtendAfter(s, "16px;\">\n", "Verify");
    AbsentCharNoContains("                  ", "Verify", 0);
    s := ExtendAfter(s, "                  ", "Verify");
  }
  lemma DashboardButtonCloseSealsVerify()
    ensures Sealed(DashboardButtonClose, "Verify")
  {
    AbsentCharNoContains("\n", "Verify", 0);
    var s := "\n";
    AbsentCharNoContains("                </a>\n", "Verify", 0);
    s := ExtendAfter(s, "                </a>\n", "Verify");
    AbsentCharNoContains("              </div>\n", "Verify", 0);
    s := ExtendAfter(s, "              </div>\n", "Verify");
    AbsentCharNoContains("\n", "Verify", 0);
    s := ExtendAfter(s, "\n", "Verify");
    AbsentCharNoContains("              <p style=\"margin: ", "Verify", 0);
    s := ExtendAfter(s, "              <p style=\"margin: ", "Verify");
    AbsentCharNoContains("30px 0 0 0; color: #6B7280; ", "Verify", 0);
    s := ExtendAfter(s, "30px 0 0 0; color: #6B7280; ", "Verify");
    AbsentCharNoContains("font-size: 14px; line-height: ", "Verify", 0);
    s := ExtendAfter(s, "font-size: 14px; line-height: ", "Verify");
    AbsentCharNoContains("1.5;\">\n", "Verify", 0);
    s := ExtendAfter(s, "1.5;\">\n", "Verify");
    AbsentCharNoContains("                Best regards,<br>\n", "Verify", 0);
    s := ExtendAfter(s, "                Best regards,<br>\n", "Verify");
    AbsentCharNoContains("                <strong>The ", "Verify", 0);
    s := ExtendAfter(s, "                <strong>The ", "Verify");
    AbsentCharNoContains("Sponsoration Team</strong>\n", "Verify", 0);
    s := ExtendAfter(s, "Sponsoration Team</strong>\n", "Verify");
    AbsentCharNoContains("              </p>\n", "Verify", 0);
    s := ExtendAfter(s, "              </p>\n", "Verify");
    AbsentCharNoContains("            </td>\n", "Verify", 0);
    s := ExtendAfter(s, "            </td>\n", "Verify");
    AbsentCharNoContains("          </tr>\n", "Verify", 0);
    s := ExtendAfter(s, "          </tr>\n", "Verify");
    AbsentCharNoContains("\n", "Verify", 0);
    s := ExtendAfter(s, "\n", "Verify");
  }
  lemma DashboardButtonSealsVerify()
    ensures Sealed(DashboardButton, "Verify")
  {
    DashboardButtonOpenSealsVerify();
    var s := DashboardButtonOpen;
    AbsentCharNoContains(DashboardLabel, "Verify", 0);
    s := ExtendAfter(s, DashboardLabel, "Verify");
    DashboardButtonCloseSealsVerify();
    s := ExtendAfter(s, DashboardButtonClose, "Verify");
  }
  lemma WelcomeFooterOpenSealsVerify()
    ensures Sealed(WelcomeFooterOpen, "Verify")
  {
    AbsentCharNoContains("          <!-- Footer -->\n", "Verify", 0);
    var s := "          <!-- Footer -->\n";
    AbsentCharNoContains("          <tr>\n", "Verify", 0);
    s := ExtendAfter(s, "          <tr>\n", "Verify");
    AbsentCharNoContains("            <td ", "Verify", 0);
    s := ExtendAfter(s, "            <td ", "Verify");
    AbsentCharNoContains("style=\"background-color: #F9FAFB; ", "Verify", 0);
    s := ExtendAfter(s, "style=\"background-color: #F9FAFB; ", "Verify");
    AbsentCharNoContains("padding: 30px 40px; text-align: ", "Verify", 0);
    s := ExtendAfter(s, "padding: 30px 40px; text-align: ", "Verify");
    AbsentCharNoContains("center; border-top: 1px solid ", "Verify", 0);
    s := ExtendAfter(s, "center; border-top: 1px solid ", "Verify");
    AbsentCharNoContains("#E5E7EB;\">\n", "Verify", 0);
    s := ExtendAfter(s, "#E5E7EB;\">\n", "Verify");
    AbsentCharNoContains("              <p style=\"margin: 0 0 ", "Verify", 0);
    s := ExtendAfter(s, "              <p style=\"margin: 0 0 ", "Verify");
    AbsentCharNoContains("10px 0; color: #9CA3AF; font-size: ", "Verify", 0);
    s := ExtendAfter(s, "10px 0; color: #9CA3AF; font-size: ", "Verify");
    AbsentCharNoContains("12px;\">\n", "Verify", 0);
    s := ExtendAfter(s, "12px;\">\n", "Verify");
    AbsentCharNoContains("                ", "Verify", 0);
    s := ExtendAfter(s, "                ", "Verify");
    AbsentCharNoContains(CopyrightSign, "Verify", 0);
    s := ExtendAfter(s, CopyrightSign, "Verify");
  }
  lemma WelcomeBeforeYearLacksVerify()
    ensures !Contains(WelcomeBeforeYear, "Verify")
  {
    AbsentCharNoContains("\"", "Verify", 0);
    var s := "\"";
    DashboardButtonSealsVerify();
    s := ExtendAfter(s, DashboardButton, "Verify");
    WelcomeFooterOpenSealsVerify();
    s := ExtendAfter(s, WelcomeFooterOpen, "Verify");
  }
  lemma FooterLinksLeadSealsVerify()
    ensures Sealed(FooterLinksLead, "Verify")
  {
    AbsentCharNoContains("\n", "Verify", 0);
    var s := "\n";
    AbsentCharNoContains("              </p>\n", "Verify", 0);
    s := ExtendAfter(s, "              </p>\n", "Verify");
    AbsentCharNoContains("              <p style=\"margin: 0; ", "Verify", 0);
    s := ExtendAfter(s, "              <p style=\"margin: 0; ", "Verify");
    AbsentCharNoContains("color: #9CA3AF; font-size: 12px;\">\n", "Verify", 0);
    s := ExtendAfter(s, "color: #9CA3AF; font-size: 12px;\">\n", "Verify");
    AbsentCharNoContains("                ", "Verify", 0);
    s := ExtendAfter(s, "                ", "Verify");
  }
  lemma WelcomeBeforePolicyLinkLacksVerify()
    ensures !Contains(WelcomeBeforePolicyLink, "Verify")
  {
    AbsentCharNoContains(RightsReserved, "Verify", 0);
    var s := RightsReserved;
    FooterLinksLeadSealsVerify();
    s := ExtendAfter(s, FooterLinksLead, "Verify");
    AbsentCharNoContains(HrefOpen, "Verify", 0);
    s := ExtendAfter(s, HrefOpen, "Verify");
  }
  lemma PolicyLinkTextSealsVerify()
    ensures Sealed(PolicyLinkText, "Verify")
  {
    AbsentCharNoContains("\" style=\"color: #6B7280; ", "Verify", 0);
    var s := "\" style=\"color: #6B7280; ";
    AbsentCharNoContains("text-decoration: none;\">Privacy ", "Verify", 0);
    s := ExtendAfter(s, "text-decoration: none;\">Privacy ", "Verify");
    AbsentCharNoContains("Policy</a> \U{2022}\n", "Verify", 0);
    s := ExtendAfter(s, "Policy</a> \U{2022}\n", "Verify");
    AbsentCharNoContains("                ", "Verify", 0);
    s := ExtendAfter(s, "                ", "Verify");
  }
  lemma WelcomeBeforeTermsLinkLacksVerify()
    ensures !Contains(WelcomeBeforeTermsLink, "Verify")
  {
    AbsentCharNoContains(PolicyPath, "Verify", 0);
    var s := PolicyPath;
    PolicyLinkTextSealsVerify();
    s := ExtendBefore(s, PolicyLinkText, "Verify");
    AbsentCharNoContains(HrefOpen, "Verify", 0);
    s := ExtendAfter(s, HrefOpen, "Verify");
  }
  lemma TermsLinkTextSealsVerify()
    ensures Sealed(TermsLinkText, "Verify")
  {
    AbsentCharNoContains("\" style=\"color: #6B7280; ", "Verify", 0);
    var s := "\" style=\"color: #6B7280; ";
    AbsentCharNoContains("text-decoration: none;\">Terms of ", "Verify", 0);
    s := ExtendAfter(s, "text-decoration: none;\">Terms of ", "Verify");
    AbsentCharNoContains("Service</a>\n", "Verify", 0);
    s := ExtendAfter(s, "Service</a>\n", "Verify");
    AbsentCharNoContains("              </p>\n", "Verify", 0);
    s := ExtendAfter(s, "              </p>\n", "Verify");
    AbsentCharNoContains("            </td>\n", "Verify", 0);
    s := ExtendAfter(s, "            </td>\n", "Verify");
    AbsentCharNoContains("          </tr>\n", "Verify", 0);
    s := ExtendAfter(s, "          </tr>\n", "Verify");
  }
  lemma WelcomeAfterTermsLinkLacksVerify()
    ensures !Contains(WelcomeAfterTermsLink, "Verify")
  {
    AbsentCharNoContains(TermsPath, "Verify", 0);
    var s := TermsPath;
    TermsLinkTextSealsVerify();
    s := ExtendAfter(s, TermsLinkText, "Verify");
    DocumentClosingSealsVerify();
    s := ExtendAfter(s, DocumentClosing, "Verify");
  }
  lemma SubheadingOpenSealsReset()
    ensures Sealed(SubheadingOpen, "Reset")
  {
    AbsentCharNoContains("              <h2 style=\"margin: 0 ", "Reset", 0);
    var s := "              <h2 style=\"margin: 0 ";
    AbsentCharNoContains("0 20px 0; color: #1F2937; ", "Reset", 0);
    s := ExtendAfter(s, "0 20px 0; color: #1F2937; ", "Reset");
    AbsentCharNoContains("font-size: 24px;\">", "Reset", 0);
    s := ExtendAfter(s, "font-size: 24px;\">", "Reset");
  }
  lemma WelcomeIntroSealsReset()
    ensures Sealed(WelcomeIntro, "Reset")
  {
    SubheadingOpenSealsReset();
    var s := SubheadingOpen;
    AbsentCharNoContains(HiPrefix, "Reset", 0);
    s := ExtendAfter(s, HiPrefix, "Reset");
  }
  lemma HeadStartSealsReset()
    ensures Sealed(HeadStart, "Reset")
  {
    AbsentCharNoContains("\n", "Reset", 0);
    var s := "\n";
    AbsentCharNoContains(HtmlOpenTag, "Reset", 0);
    s := ExtendAfter(s, HtmlOpenTag, "Reset");
    AbsentCharNoContains("\n", "Reset", 0);
    s := ExtendAfter(s, "\n", "Reset");
    AbsentCharNoContains(HeadOpenTag, "Reset", 0);
    s := ExtendAfter(s, HeadOpenTag, "Reset");
    AbsentCharNoContains("\n", "Reset", 0);
    s := ExtendAfter(s, "\n", "Reset");
    AbsentCharNoContains("  <meta ", "Reset", 0);
    s := ExtendAfter(s, "  <meta ", "Reset");
    AbsentCharNoContains(CharsetAttribute, "Reset", 0);
    s := ExtendAfter(s, CharsetAttribute, "Reset");
    AbsentCharNoContains(">\n", "Reset", 0);
    s := ExtendAfter(s, ">\n", "Reset");
    AbsentCharNoContains("  ", "Reset", 0);
    s := ExtendAfter(s, "  ", "Reset");
    AbsentCharNoContains(ViewportMeta, "Reset", 0);
    s := ExtendAfter(s, ViewportMeta, "Reset");
    AbsentCharNoContains(" content=\"width=device-width, ", "Reset", 0);
    s := ExtendAfter(s, " content=\"width=device-width, ", "Reset");
    AbsentCharNoContains("initial-scale=1.0\">\n", "Reset", 0);
    s := ExtendAfter(s, "initial-scale=1.0\">\n", "Reset");
    AbsentCharNoContains("  <title>", "Reset", 0);
    s := ExtendAfter(s, "  <title>", "Reset");
  }
  lemma HeadEndSealsReset()
    ensures Sealed(HeadEnd, "Reset")
  {
    AbsentCharNoContains("</title>\n", "Reset", 0);
    var s := "</title>\n";
    AbsentCharNoContains(HeadCloseTag, "Reset", 0);
    s := ExtendAfter(s, HeadCloseTag, "Reset");
    AbsentCharNoContains("\n", "Reset", 0);
    s := ExtendAfter(s, "\n", "Reset");
  }
  lemma DocumentHeadSealsReset(title: string)
    requires !Contains(title, "Reset")
    ensures Sealed(DocumentHead(title), "Reset")
  {
    AbsentCharNoContains(DocType, "Reset", 0);
    var s := DocType;
    HeadStartSealsReset();
    s := ExtendAfter(s, HeadStart, "Reset");
    s := ExtendAfter(s, title, "Reset");
    HeadEndSealsReset();
    s := ExtendBefore(s, HeadEnd, "Reset");
  }
  lemma BodyStartSealsReset()
    ensures Sealed(BodyStart, "Reset")
  {
    AbsentCharNoContains(BodyTagStart, "Reset", 0);
    var s := BodyTagStart;
    AbsentCharNoContains(" style=\"margin: 0; padding: 0; ", "Reset", 0);
    s := ExtendAfter(s, " style=\"margin: 0; padding: 0; ", "Reset");
    AbsentCharNoContains("font-family: Arial, sans-serif; ", "Reset", 0);
    s := ExtendAfter(s, "font-family: Arial, sans-serif; ", "Reset");
    AbsentCharNoContains("background-color: #f4f4f4;\">\n", "Reset", 0);
    s := ExtendAfter(s, "background-color: #f4f4f4;\">\n", "Reset");
  }
  lemma OuterTableOpenSealsReset()
    ensures Sealed(OuterTableOpen, "Reset")
  {
    AbsentCharNoContains("  ", "Reset", 0);
    var s := "  ";
    AbsentCharNoContains(TableTagStart, "Reset", 0);
    s := ExtendAfter(s, TableTagStart, "Reset");
    AbsentCharNoContains(" width=\"100%\" cellpadding=\"0\" ", "Reset", 0);
    s := ExtendBefore(s, " width=\"100%\" cellpadding=\"0\" ", "Reset");
    AbsentCharNoContains("cellspacing=\"0\" ", "Reset", 0);
    s := ExtendAfter(s, "cellspacing=\"0\" ", "Reset");
    AbsentCharNoContains("style=\"background-color: #f4f4f4; ", "Reset", 0);
    s := ExtendAfter(s, "style=\"background-color: #f4f4f4; ", "Reset");
    AbsentCharNoContains("padding: 20px;\">\n", "Reset", 0);
    s := ExtendAfter(s, "padding: 20px;\">\n", "Reset");
    AbsentCharNoContains("    <tr>\n", "Reset", 0);
    s := ExtendAfter(s, "    <tr>\n", "Reset");
    AbsentCharNoContains("      <td align=\"center\">\n", "Reset", 0);
    s := ExtendAfter(s, "      <td align=\"center\">\n", "Reset");
  }
  lemma CardTableOpenSealsReset()
    ensures Sealed(CardTableOpen, "Reset")
  {
    AbsentCharNoContains("        ", "Reset", 0);
    var s := "        ";
    AbsentCharNoContains(TableTagStart, "Reset", 0);
    s := ExtendAfter(s, TableTagStart, "Reset");
    AbsentCharNoContains(" width=\"600\" cellpadding=\"0\" ", "Reset", 0);
    s := ExtendBefore(s, " width=\"600\" cellpadding=\"0\" ", "Reset");
    AbsentCharNoContains("cellspacing=\"0\" ", "Reset", 0);
    s := ExtendAfter(s, "cellspacing=\"0\" ", "Reset");
    AbsentCharNoContains("style=\"background-color: #ffffff; ", "Reset", 0);
    s := ExtendAfter(s, "style=\"background-color: #ffffff; ", "Reset");
    AbsentCharNoContains("border-radius: 8px; overflow: ", "Reset", 0);
    s := ExtendAfter(s, "border-radius: 8px; overflow: ", "Reset");
    AbsentCharNoContains("hidden;\">\n", "Reset", 0);
    s := ExtendAfter(s, "hidden;\">\n", "Reset");
  }
  lemma BodyOpenSealsReset()
    ensures Sealed(BodyOpen, "Reset")
  {
    BodyStartSealsReset();
    var s := BodyStart;
    OuterTableOpenSealsReset();
    s := ExtendAfter(s, OuterTableOpen, "Reset");
    CardTableOpenSealsReset();
    s := ExtendAfter(s, CardTableOpen, "Reset");
  }
  lemma HeaderRowOpenSealsReset()
    ensures Sealed(HeaderRowOpen, "Reset")
  {
    AbsentCharNoContains("          <!-- Header -->\n", "Reset", 0);
    var s := "          <!-- Header -->\n";
    AbsentCharNoContains("          <tr>\n", "Reset", 0);
    s := ExtendAfter(s, "          <tr>\n", "Reset");
    AbsentCharNoContains("            <td ", "Reset", 0);
    s := ExtendAfter(s, "            <td ", "Reset");
    AbsentCharNoContains("style=\"background-color: ", "Reset", 0);
    s := ExtendAfter(s, "style=\"background-color: ", "Reset");
  }
  lemma HeaderBandOpenSealsReset(color: string)
    requires !Contains(color, "Reset")
    ensures Sealed(HeaderBandOpen(color), "Reset")
  {
    HeaderRowOpenSealsReset();
    var s := HeaderRowOpen;
    s := ExtendAfter(s, color, "Reset");
    AbsentCharNoContains("; padding: 30px 40px; text-align: ", "Reset", 0);
    s := ExtendBefore(s, "; padding: 30px 40px; text-align: ", "Reset");
    AbsentCharNoContains("center;\">\n", "Reset", 0);
    s := ExtendAfter(s, "center;\">\n", "Reset");
    AbsentCharNoContains("              <h1 style=\"margin: 0; ", "Reset", 0);
    s := ExtendAfter(s, "              <h1 style=\"margin: 0; ", "Reset");
    AbsentCharNoContains("color: #ffffff; font-size: 28px;\">", "Reset", 0);
    s := ExtendAfter(s, "color: #ffffff; font-size: 28px;\">", "Reset");
  }
  lemma HeaderBandCloseSealsReset()
    ensures Sealed(HeaderBandClose, "Reset")
  {
    AbsentCharNoContains("</h1>\n", "Reset", 0);
    var s := "</h1>\n";
    AbsentCharNoContains("            </td>\n", "Reset", 0);
    s := ExtendAfter(s, "            </td>\n", "Reset");
    AbsentCharNoContains("          </tr>\n", "Reset", 0);
    s := ExtendAfter(s, "          </tr>\n", "Reset");
    AbsentCharNoContains("\n", "Reset", 0);
    s := ExtendAfter(s, "\n", "Reset");
  }
  lemma HeaderBandSealsReset(color: string, heading: string)
    requires !Contains(color, "Reset")
    requires !Contains(heading, "Reset")
    ensures Sealed(HeaderBand(color, heading), "Reset")
  {
    HeaderBandOpenSealsReset(color);
    var s := HeaderBandOpen(color);
    s := ExtendAfter(s, heading, "Reset");
    HeaderBandCloseSealsReset();
    s := ExtendBefore(s, HeaderBandClose, "Reset");
  }
  lemma ContentOpenSealsReset()
    ensures Sealed(ContentOpen, "Reset")
  {
    AbsentCharNoContains("          <!-- Content -->\n", "Reset", 0);
    var s := "          <!-- Content -->\n";
    AbsentCharNoContains("          <tr>\n", "Reset", 0);
    s := ExtendAfter(s, "          <tr>\n", "Reset");
    AbsentCharNoContains("            <td style=\"padding: ", "Reset", 0);
    s := ExtendAfter(s, "            <td style=\"padding: ", "Reset");
    AbsentCharNoContains("40px;\">\n", "Reset", 0);
    s := ExtendAfter(s, "40px;\">\n", "Reset");
  }
  lemma DocumentTopSealsReset(title: string, color: string, heading: string, intro: string)
    requires !Contains(title, "Reset")
    requires !Contains(color, "Reset")
    requires !Contains(heading, "Reset")
    requires Sealed(intro, "Reset")
    ensures Sealed(DocumentTop(title, color, heading, intro), "Reset")
  {
    DocumentHeadSealsReset(title);
    var s := DocumentHead(title);
    BodyOpenSealsReset();
    s := ExtendAfter(s, BodyOpen, "Reset");
    HeaderBandSealsReset(color, heading);
    s := ExtendAfter(s, HeaderBand(color, heading), "Reset");
    ContentOpenSealsReset();
    s := ExtendAfter(s, ContentOpen, "Reset");
    s := ExtendAfter(s, intro, "Reset");
  }
  lemma WelcomeBeforeNameLacksReset()
    ensures !Contains(WelcomeBeforeName, "Reset")
  {
    AbsentCharNoContains(WelcomeTitle, "Reset", 0);
    AbsentCharNoContains("#10B981", "Reset", 0);
    AbsentCharNoContains(PartyIcon, "Reset", 0);
    AbsentCharNoContains(" Welcome to Sponsoration!", "Reset", 0);
    ContainsAppendIff(PartyIcon, " Welcome to Sponsoration!", "Reset");
    WelcomeIntroSealsReset();
    DocumentTopSealsReset(WelcomeTitle, "#10B981", PartyIcon + " Welcome to Sponsoration!", WelcomeIntro);
  }
  lemma WelcomeThanksSealsReset()
    ensures Sealed(WelcomeThanks, "Reset")
  {
    AbsentCharNoContains("              <p style=\"margin: 0 0 ", "Reset", 0);
    var s := "              <p style=\"margin: 0 0 ";
    AbsentCharNoContains("20px 0; color: #4B5563; font-size: ", "Reset", 0);
    s := ExtendAfter(s, "20px 0; color: #4B5563; font-size: ", "Reset");
    AbsentCharNoContains("16px; line-height: 1.5;\">\n", "Reset", 0);
    s := ExtendAfter(s, "16px; line-height: 1.5;\">\n", "Reset");
    AbsentCharNoContains("                Thank you for ", "Reset", 0);
    s := ExtendAfter(s, "                Thank you for ", "Reset");
    AbsentCharNoContains("joining our community! We're ", "Reset", 0);
    s := ExtendAfter(s, "joining our community! We're ", "Reset");
    AbsentCharNoContains("excited to have you on board.\n", "Reset", 0);
    s := ExtendAfter(s, "excited to have you on board.\n", "Reset");
    AbsentCharNoContains("              </p>\n", "Reset", 0);
    s := ExtendAfter(s, "              </p>\n", "Reset");
  }
  lemma WelcomeGetStartedSealsReset()
    ensures Sealed(WelcomeGetStarted, "Reset")
  {
    AbsentCharNoContains("              <p style=\"margin: 0 0 ", "Reset", 0);
    var s := "              <p style=\"margin: 0 0 ";
    AbsentCharNoContains("30px 0; color: #4B5563; font-size: ", "Reset", 0);
    s := ExtendAfter(s, "30px 0; color: #4B5563; font-size: ", "Reset");
    AbsentCharNoContains("16px; line-height: 1.5;\">\n", "Reset", 0);
    s := ExtendAfter(s, "16px; line-height: 1.5;\">\n", "Reset");
    AbsentCharNoContains("                Get started by ", "Reset", 0);
    s := ExtendAfter(s, "                Get started by ", "Reset");
    AbsentCharNoContains("completing your profile and ", "Reset", 0);
    s := ExtendAfter(s, "completing your profile and ", "Reset");
    AbsentCharNoContains("exploring the platform.\n", "Reset", 0);
    s := ExtendAfter(s, "exploring the platform.\n", "Reset");
    AbsentCharNoContains("              </p>\n", "Reset", 0);
    s := ExtendAfter(s, "              </p>\n", "Reset");
  }
  lemma ButtonAreaOpenSealsReset()
    ensures Sealed(ButtonAreaOpen, "Reset")
  {
    AbsentCharNoContains("\n", "Reset", 0);
    var s := "\n";
    AbsentCharNoContains("              <!-- CTA Button -->\n", "Reset", 0);
    s := ExtendAfter(s, "              <!-- CTA Button -->\n", "Reset");
    AbsentCharNoContains("              <div ", "Reset", 0);
    s := ExtendAfter(s, "              <div ", "Reset");
    AbsentCharNoContains("style=\"text-align: center; margin: ", "Reset", 0);
    s := ExtendAfter(s, "style=\"text-align: center; margin: ", "Reset");
    AbsentCharNoContains("30px 0;\">\n", "Reset", 0);
    s := ExtendAfter(s, "30px 0;\">\n", "Reset");
    AbsentCharNoContains("                ", "Reset", 0);
    s := ExtendAfter(s, "                ", "Reset");
  }
  lemma WelcomeMessageSealsReset()
    ensures Sealed(WelcomeMessage, "Reset")
  {
    AbsentCharNoContains("</h2>\n", "Reset", 0);
    var s := "</h2>\n";
    WelcomeThanksSealsReset();
    s := ExtendAfter(s, WelcomeThanks, "Reset");
    WelcomeGetStartedSealsReset();
    s := ExtendAfter(s, WelcomeGetStarted, "Reset");
    ButtonAreaOpenSealsReset();
    s := ExtendAfter(s, ButtonAreaOpen, "Reset");
  }
  lemma WelcomeBeforeDashboardLinkLacksReset()
    ensures !Contains(WelcomeBeforeDashboardLink, "Reset")
  {
    AbsentCharNoContains(",", "Reset", 0);
    var s := ",";
    WelcomeMessageSealsReset();
    s := ExtendAfter(s, WelcomeMessage, "Reset");
    AbsentCharNoContains(HrefOpen, "Reset", 0);
    s := ExtendAfter(s, HrefOpen, "Reset");
  }
  lemma DashboardButtonOpenSealsReset()
    ensures Sealed(DashboardButtonOpen, "Reset")
  {
    AbsentCharNoContains("\n", "Reset", 0);
    var s := "\n";
    AbsentCharNoContains("                   style=\"display: ", "Reset", 0);
    s := ExtendAfter(s, "                   style=\"display: ", "Reset");
    AbsentCharNoContains("inline-block; background-color: ", "Reset", 0);
    s := ExtendAfter(s, "inline-block; background-color: ", "Reset");
    AbsentCharNoContains("#10B981; color: #ffffff; ", "Reset", 0);
    s := ExtendAfter(s, "#10B981; color: #ffffff; ", "Reset");
    AbsentCharNoContains("text-decoration: none; padding: ", "Reset", 0);
    s := ExtendAfter(s, "text-decoration: none; padding: ", "Reset");
    AbsentCharNoContains("15px 30px; border-radius: 6px; ", "Reset", 0);
    s := ExtendAfter(s, "15px 30px; border-radius: 6px; ", "Reset");
    AbsentCharNoContains("font-weight: bold; font-size: ", "Reset", 0);
    s := ExtendAfter(s, "font-weight: bold; font-size: ", "Reset");
    AbsentCharNoContains("16px;\">\n", "Reset", 0);
    s := ExtendAfter(s, "16px;\">\n", "Reset");
    AbsentCharNoContains("                  ", "Reset", 0);
    s := ExtendAfter(s, "                  ", "Reset");
  }
  lemma DashboardButtonCloseSealsReset()
    ensures Sealed(DashboardButtonClose, "Reset")
  {
    AbsentCharNoContains("\n", "Reset", 0);
    var s := "\n";
    AbsentCharNoContains("                </a>\n", "Reset", 0);
    s := ExtendAfter(s, "                </a>\n", "Reset");
    AbsentCharNoContains("              </div>\n", "Reset", 0);
    s := ExtendAfter(s, "              </div>\n", "Reset");
    AbsentCharNoContains("\n", "Reset", 0);
    s := ExtendAfter(s, "\n", "Reset");
    AbsentCharNoContains("              <p style=\"margin: ", "Reset", 0);
    s := ExtendAfter(s, "              <p style=\"margin: ", "Reset");
    AbsentCharNoContains("30px 0 0 0; color: #6B7280; ", "Reset", 0);
    s := ExtendAfter(s, "30px 0 0 0; color: #6B7280; ", "Reset");
    AbsentCharNoContains("font-size: 14px; line-height: ", "Reset", 0);
    s := ExtendAfter(s, "font-size: 14px; line-height: ", "Reset");
    AbsentCharNoContains("1.5;\">\n", "Reset", 0);
    s := ExtendAfter(s, "1.5;\">\n", "Reset");
    AbsentCharNoContains("                Best regards,<br>\n", "Reset", 0);
    s := ExtendAfter(s, "                Best regards,<br>\n", "Reset");
    AbsentCharNoContains("                <strong>The ", "Reset", 0);
    s := ExtendAfter(s, "                <strong>The ", "Reset");
    AbsentCharNoContains("Sponsoration Team</strong>\n", "Reset", 0);
    s := ExtendAfter(s, "Sponsoration Team</strong>\n", "Reset");
    AbsentCharNoContains("              </p>\n", "Reset", 0);
    s := ExtendAfter(s, "              </p>\n", "Reset");
    AbsentCharNoContains("            </td>\n", "Reset", 0);
    s := ExtendAfter(s, "            </td>\n", "Reset");
    AbsentCharNoContains("          </tr>\n", "Reset", 0);
    s := ExtendAfter(s, "          </tr>\n", "Reset");
    AbsentCharNoContains("\n", "Reset", 0);
    s := ExtendAfter(s, "\n", "Reset");
  }
  lemma DashboardButtonSealsReset()
    ensures Sealed(DashboardButton, "Reset")
  {
    DashboardButtonOpenSealsReset();
    var s := DashboardButtonOpen;
    AbsentCharNoContains(DashboardLabel, "Reset", 0);
    s := ExtendAfter(s, DashboardLabel, "Reset");
    DashboardButtonCloseSealsReset();
    s := ExtendAfter(s, DashboardButtonClose, "Reset");
  }
  lemma WelcomeFooterOpenSealsReset()
    ensures Sealed(WelcomeFooterOpen, "Reset")
  {
    AbsentCharNoContains("          <!-- Footer -->\n", "Reset", 0);
    var s := "          <!-- Footer -->\n";
    AbsentCharNoContains("          <tr>\n", "Reset", 0);
    s := ExtendAfter(s, "          <tr>\n", "Reset");
    AbsentCharNoContains("            <td ", "Reset", 0);
    s := ExtendAfter(s, "            <td ", "Reset");
    AbsentCharNoContains("style=\"background-color: #F9FAFB; ", "Reset", 0);
    s := ExtendAfter(s, "style=\"background-color: #F9FAFB; ", "Reset");
    AbsentCharNoContains("padding: 30px 40px; text-align: ", "Reset", 0);
    s := ExtendAfter(s, "padding: 30px 40px; text-align: ", "Reset");
    AbsentCharNoContains("center; border-top: 1px solid ", "Reset", 0);
    s := ExtendAfter(s, "center; border-top: 1px solid ", "Reset");
    AbsentCharNoContains("#E5E7EB;\">\n", "Reset", 0);
    s := ExtendAfter(s, "#E5E7EB;\">\n", "Reset");
    AbsentCharNoContains("              <p style=\"margin: 0 0 ", "Reset", 0);
    s := ExtendAfter(s, "              <p style=\"margin: 0 0 ", "Reset");
    AbsentCharNoContains("10px 0; color: #9CA3AF; font-size: ", "Reset", 0);
    s := ExtendAfter(s, "10px 0; color: #9CA3AF; font-size: ", "Reset");
    AbsentCharNoContains("12px;\">\n", "Reset", 0);
    s := ExtendAfter(s, "12px;\">\n", "Reset");
    AbsentCharNoContains("                ", "Reset", 0);
    s := ExtendAfter(s, "                ", "Reset");
    AbsentCharNoContains(CopyrightSign, "Reset", 0);
    s := ExtendAfter(s, CopyrightSign, "Reset");
  }
  lemma WelcomeBeforeYearLacksReset()
    ensures !Contains(WelcomeBeforeYear, "Reset")
  {
    AbsentCharNoContains("\"", "Reset", 0);
    var s := "\"";
    DashboardButtonSealsReset();
    s := ExtendAfter(s, DashboardButton, "Reset");
    WelcomeFooterOpenSealsReset();
    s := ExtendAfter(s, WelcomeFooterOpen, "Reset");
  }
  lemma FooterLinksLeadSealsReset()
    ensures Sealed(FooterLinksLead, "Reset")
  {
    AbsentCharNoContains("\n", "Reset", 0);
    var s := "\n";
    AbsentCharNoContains("              </p>\n", "Reset", 0);
    s := ExtendAfter(s, "              </p>\n", "Reset");
    AbsentCharNoContains("              <p style=\"margin: 0; ", "Reset", 0);
    s := ExtendAfter(s, "              <p style=\"margin: 0; ", "Reset");
    AbsentCharNoContains("color: #9CA3AF; font-size: 12px;\">\n", "Reset", 0);
    s := ExtendAfter(s, "color: #9CA3AF; font-size: 12px;\">\n", "Reset");
    AbsentCharNoContains("                ", "Reset", 0);
    s := ExtendAfter(s, "                ", "Reset");
  }
  lemma WelcomeBeforePolicyLinkLacksReset()
    ensures !Contains(WelcomeBeforePolicyLink, "Reset")
  {
    AbsentCharNoContains(RightsReserved, "Reset", 0);
    var s := RightsReserved;
    FooterLinksLeadSealsReset();
    s := ExtendAfter(s, FooterLinksLead, "Reset");
    AbsentCharNoContains(HrefOpen, "Reset", 0);
    s := ExtendAfter(s, HrefOpen, "Reset");
  }
  lemma PolicyLinkTextSealsReset()
    ensures Sealed(PolicyLinkText, "Reset")
  {
    AbsentCharNoContains("\" style=\"color: #6B7280; ", "Reset", 0);
    var s := "\" style=\"color: #6B7280; ";
    AbsentCharNoContains("text-decoration: none;\">Privacy ", "Reset", 0);
    s := ExtendAfter(s, "text-decoration: none;\">Privacy ", "Reset");
    AbsentCharNoContains("Policy</a> \U{2022}\n", "Reset", 0);
    s := ExtendAfter(s, "Policy</a> \U{2022}\n", "Reset");
    AbsentCharNoContains("                ", "Reset", 0);
    s := ExtendAfter(s, "                ", "Reset");
  }
  lemma WelcomeBeforeTermsLinkLacksReset()
    ensures !Contains(WelcomeBeforeTermsLink, "Reset")
  {
    AbsentCharNoContains(PolicyPath, "Reset", 0);
    var s := PolicyPath;
    PolicyLinkTextSealsReset();
    s := ExtendAfter(s, PolicyLinkText, "Reset");
    AbsentCharNoContains(HrefOpen, "Reset", 0);
    s := ExtendAfter(s, HrefOpen, "Reset");
  }
  lemma TermsLinkTextSealsReset()
    ensures Sealed(TermsLinkText, "Reset")
  {
    AbsentCharNoContains("\" style=\"color: #6B7280; ", "Reset", 0);
    var s := "\" style=\"color: #6B7280; ";
    AbsentCharNoContains("text-decoration: none;\">Terms of ", "Reset", 0);
    s := ExtendAfter(s, "text-decoration: none;\">Terms of ", "Reset");
    AbsentCharNoContains("Service</a>\n", "Reset", 0);
    s := ExtendAfter(s, "Service</a>\n", "Reset");
    AbsentCharNoContains("              </p>\n", "Reset", 0);
    s := ExtendAfter(s, "              </p>\n", "Reset");
    AbsentCharNoContains("            </td>\n", "Reset", 0);
    s := ExtendAfter(s, "            </td>\n", "Reset");
    AbsentCharNoContains("          </tr>\n", "Reset", 0);
    s := ExtendAfter(s, "          </tr>\n", "Reset");
  }
  lemma TableCloseSealsReset()
    ensures Sealed(TableClose, "Reset")
  {
    AbsentCharNoContains("        ", "Reset", 0);
    var s := "        ";
    AbsentCharNoContains(TableCloseTag, "Reset", 0);
    s := ExtendAfter(s, TableCloseTag, "Reset");
    AbsentCharNoContains("\n", "Reset", 0);
    s := ExtendAfter(s, "\n", "Reset");
    AbsentCharNoContains("      </td>\n", "Reset", 0);
    s := ExtendAfter(s, "      </td>\n", "Reset");
    AbsentCharNoContains("    </tr>\n", "Reset", 0);
    s := ExtendAfter(s, "    </tr>\n", "Reset");
    AbsentCharNoContains("  ", "Reset", 0);
    s := ExtendAfter(s, "  ", "Reset");
    AbsentCharNoContains(TableCloseTag, "Reset", 0);
    s := ExtendAfter(s, TableCloseTag, "Reset");
    AbsentCharNoContains("\n", "Reset", 0);
    s := ExtendAfter(s, "\n", "Reset");
    AbsentCharNoContains(BodyCloseTag, "Reset", 0);
    s := ExtendAfter(s, BodyCloseTag, "Reset");
    AbsentCharNoContains("\n", "Reset", 0);
    s := ExtendAfter(s, "\n", "Reset");
  }
  lemma DocumentClosingSealsReset()
    ensures Sealed(DocumentClosing, "Reset")
  {
    TableCloseSealsReset();
    var s := TableClose;
    AbsentCharNoContains(HtmlClose, "Reset", 0);
    s := ExtendAfter(s, HtmlClose, "Reset");
    AbsentCharNoContains(TrailingSpace, "Reset", 0);
    s := ExtendAfter(s, TrailingSpace, "Reset");
  }
  lemma WelcomeAfterTermsLinkLacksReset()
    ensures !Contains(WelcomeAfterTermsLink, "Reset")
  {
    AbsentCharNoContains(TermsPath, "Reset", 0);
    var s := TermsPath;
    TermsLinkTextSealsReset();
    s := ExtendBefore(s, TermsLinkText, "Reset");
    DocumentClosingSealsReset();
    s := ExtendAfter(s, DocumentClosing, "Reset");
  }
  lemma SubheadingOpenSealsCode()
    ensures Sealed(SubheadingOpen, "code")
  {
    AbsentCharNoContains("              <h2 style=\"margin: 0 ", "code", 0);
    var s := "              <h2 style=\"margin: 0 ";
    AbsentCharNoContains("0 20px 0; color: #1F2937; ", "code", 2);
    s := ExtendAfter(s, "0 20px 0; color: #1F2937; ", "code");
    AbsentCharNoContains("font-size: 24px;\">", "code", 0);
    s := ExtendAfter(s, "font-size: 24px;\">", "code");
  }
  lemma WelcomeIntroSealsCode()
    ensures Sealed(WelcomeIntro, "code")
  {
    SubheadingOpenSealsCode();
    var s := SubheadingOpen;
    AbsentCharNoContains(HiPrefix, "code", 0);
    s := ExtendAfter(s, HiPrefix, "code");
  }
  lemma HeadStartSealsCode()
    ensures Sealed(HeadStart, "code")
  {
    AbsentCharNoContains("\n", "code", 0);
    var s := "\n";
    AbsentCharNoContains(HtmlOpenTag, "code", 0);
    s := ExtendAfter(s, HtmlOpenTag, "code");
    AbsentCharNoContains("\n", "code", 0);
    s := ExtendAfter(s, "\n", "code");
    AbsentCharNoContains(HeadOpenTag, "code", 0);
    s := ExtendAfter(s, HeadOpenTag, "code");
    AbsentCharNoContains("\n", "code", 0);
    s := ExtendAfter(s, "\n", "code");
    AbsentCharNoContains("  <meta ", "code", 0);
    s := ExtendAfter(s, "  <meta ", "code");
    AbsentCharNoContains(CharsetAttribute, "code", 1);
    s := ExtendAfter(s, CharsetAttribute, "code");
    AbsentCharNoContains(">\n", "code", 0);
    s := ExtendAfter(s, ">\n", "code");
    AbsentCharNoContains("  ", "code", 0);
    s := ExtendAfter(s, "  ", "code");
    AbsentCharNoContains(ViewportMeta, "code", 0);
    s := ExtendAfter(s, ViewportMeta, "code");
    AbsentPairNoContains(" content=\"width=device-width, ", "code", 1);
    s := ExtendAfter(s, " content=\"width=device-width, ", "code");
    AbsentCharNoContains("initial-scale=1.0\">\n", "code", 1);
    s := ExtendAfter(s, "initial-scale=1.0\">\n", "code");
    AbsentCharNoContains("  <title>", "code", 0);
    s := ExtendAfter(s, "  <title>", "code");
  }
  lemma HeadEndSealsCode()
    ensures Sealed(HeadEnd, "code")
  {
    AbsentCharNoContains("</title>\n", "code", 0);
    var s := "</title>\n";
    AbsentCharNoContains(HeadCloseTag, "code", 0);
    s := ExtendAfter(s, HeadCloseTag, "code");
    AbsentCharNoContains("\n", "code", 0);
    s := ExtendAfter(s, "\n", "code");
  }
  lemma DocumentHeadSealsCode(title: string)
    requires !Contains(title, "code")
    ensures Sealed(DocumentHead(title), "code")
  {
    AbsentCharNoContains(DocType, "code", 0);
    var s := DocType;
    HeadStartSealsCode();
    s := ExtendAfter(s, HeadStart, "code");
    s := ExtendAfter(s, title, "code");
    HeadEndSealsCode();
    s := ExtendBefore(s, HeadEnd, "code");
  }
  lemma BodyStartSealsCode()
    ensures Sealed(BodyStart, "code")
  {
    AbsentCharNoContains(BodyTagStart, "code", 0);
    var s := BodyTagStart;
    AbsentCharNoContains(" style=\"margin: 0; padding: 0; ", "code", 0);
    s := ExtendAfter(s, " style=\"margin: 0; padding: 0; ", "code");
    AbsentCharNoContains("font-family: Arial, sans-serif; ", "code", 0);
    s := ExtendAfter(s, "font-family: Arial, sans-serif; ", "code");
    AbsentCharNoContains("background-color: #f4f4f4;\">\n", "code", 3);
    s := ExtendAfter(s, "background-color: #f4f4f4;\">\n", "code");
  }
  lemma OuterTableOpenSealsCode()
    ensures Sealed(OuterTableOpen, "code")
  {
    AbsentCharNoContains("  ", "code", 0);
    var s := "  ";
    AbsentCharNoContains(TableTagStart, "code", 0);
    s := ExtendAfter(s, TableTagStart, "code");
    AbsentCharNoContains(" width=\"100%\" cellpadding=\"0\" ", "code", 1);
    s := ExtendBefore(s, " width=\"100%\" cellpadding=\"0\" ", "code");
    AbsentCharNoContains("cellspacing=\"0\" ", "code", 1);
    s := ExtendAfter(s, "cellspacing=\"0\" ", "code");
    AbsentPairNoContains("style=\"background-color: #f4f4f4; ", "code", 1);
    s := ExtendAfter(s, "style=\"background-color: #f4f4f4; ", "code");
    AbsentCharNoContains("padding: 20px;\">\n", "code", 0);
    s := ExtendAfter(s, "padding: 20px;\">\n", "code");
    AbsentCharNoContains("    <tr>\n", "code", 0);
    s := ExtendAfter(s, "    <tr>\n", "code");
    AbsentCharNoContains("      <td align=\"center\">\n", "code", 1);
    s := ExtendAfter(s, "      <td align=\"center\">\n", "code");
  }
  lemma CardTableOpenSealsCode()
    ensures Sealed(CardTableOpen, "code")
  {
    AbsentCharNoContains("        ", "code", 0);
    var s := "        ";
    AbsentCharNoContains(TableTagStart, "code", 0);
    s := ExtendAfter(s, TableTagStart, "code");
    AbsentCharNoContains(" width=\"600\" cellpadding=\"0\" ", "code", 1);
    s := ExtendBefore(s, " width=\"600\" cellpadding=\"0\" ", "code");
    AbsentCharNoContains("cellspacing=\"0\" ", "code", 1);
    s := ExtendAfter(s, "cellspacing=\"0\" ", "code");
    AbsentPairNoContains("style=\"background-color: #ffffff; ", "code", 1);
    s := ExtendAfter(s, "style=\"background-color: #ffffff; ", "code");
    AbsentCharNoContains("border-radius: 8px; overflow: ", "code", 0);
    s := ExtendAfter(s, "border-radius: 8px; overflow: ", "code");
    AbsentCharNoContains("hidden;\">\n", "code", 0);
    s := ExtendAfter(s, "hidden;\">\n", "code");
  }
  lemma BodyOpenSealsCode()
    ensures Sealed(BodyOpen, "code")
  {
    BodyStartSealsCode();
    var s := BodyStart;
    OuterTableOpenSealsCode();
    s := ExtendAfter(s, OuterTableOpen, "code");
    CardTableOpenSealsCode();
    s := ExtendAfter(s, CardTableOpen, "code");
  }
  lemma HeaderRowOpenSealsCode()
    ensures Sealed(HeaderRowOpen, "code")
  {
    AbsentCharNoContains("          <!-- Header -->\n", "code", 0);
    var s := "          <!-- Header -->\n";
    AbsentCharNoContains("          <tr>\n", "code", 0);
    s := ExtendAfter(s, "          <tr>\n", "code");
    AbsentCharNoContains("            <td ", "code", 0);
    s := ExtendAfter(s, "            <td ", "code");
    AbsentPairNoContains("style=\"background-color: ", "code", 1);
    s := ExtendAfter(s, "style=\"background-color: ", "code");
  }
  lemma HeaderBandOpenSealsCode(color: string)
    requires !Contains(color, "code")
    ensures Sealed(HeaderBandOpen(color), "code")
  {
    HeaderRowOpenSealsCode();
    var s := HeaderRowOpen;
    s := ExtendAfter(s, color, "code");
    AbsentCharNoContains("; padding: 30px 40px; text-align: ", "code", 0);
    s := ExtendBefore(s, "; padding: 30px 40px; text-align: ", "code");
    AbsentCharNoContains("center;\">\n", "code", 1);
    s := ExtendAfter(s, "center;\">\n", "code");
    AbsentCharNoContains("              <h1 style=\"margin: 0; ", "code", 0);
    s := ExtendAfter(s, "              <h1 style=\"margin: 0; ", "code");
    AbsentCharNoContains("color: #ffffff; font-size: 28px;\">", "code", 2);
    s := ExtendAfter(s, "color: #ffffff; font-size: 28px;\">", "code");
  }
  lemma HeaderBandCloseSealsCode()
    ensures Sealed(HeaderBandClose, "code")
  {
    AbsentCharNoContains("</h1>\n", "code", 0);
    var s := "</h1>\n";
    AbsentCharNoContains("            </td>\n", "code", 0);
    s := ExtendAfter(s, "            </td>\n", "code");
    AbsentCharNoContains("          </tr>\n", "code", 0);
    s := ExtendAfter(s, "          </tr>\n", "code");
    AbsentCharNoContains("\n", "code", 0);
    s := ExtendAfter(s, "\n", "code");
  }
  lemma HeaderBandSealsCode(color: string, heading: string)
    requires !Contains(color, "code")
    requires !Contains(heading, "code")
    ensures Sealed(HeaderBand(color, heading), "code")
  {
    HeaderBandOpenSealsCode(color);
    var s := HeaderBandOpen(color);
    s := ExtendAfter(s, heading, "code");
    HeaderBandCloseSealsCode();
    s := ExtendBefore(s, HeaderBandClose, "code");
  }
  lemma ContentOpenSealsCode()
    ensures Sealed(ContentOpen, "code")
  {
    AbsentCharNoContains("          <!-- Content -->\n", "code", 0);
    var s := "          <!-- Content -->\n";
    AbsentCharNoContains("          <tr>\n", "code", 0);
    s := ExtendAfter(s, "          <tr>\n", "code");
    AbsentCharNoContains("            <td style=\"padding: ", "code", 0);
    s := ExtendAfter(s, "            <td style=\"padding: ", "code");
    AbsentCharNoContains("40px;\">\n", "code", 0);
    s := ExtendAfter(s, "40px;\">\n", "code");
  }
  lemma DocumentTopSealsCode(title: string, color: string, heading: string, intro: string)
    requires !Contains(title, "code")
    requires !Contains(color, "code")
    requires !Contains(heading, "code")
    requires Sealed(intro, "code")
    ensures Sealed(DocumentTop(title, color, heading, intro), "code")
  {
    DocumentHeadSealsCode(title);
    var s := DocumentHead(title);
    BodyOpenSealsCode();
    s := ExtendAfter(s, BodyOpen, "code");
    HeaderBandSealsCode(color, heading);
    s := ExtendAfter(s, HeaderBand(color, heading), "code");
    ContentOpenSealsCode();
    s := ExtendAfter(s, ContentOpen, "code");
    s := ExtendAfter(s, intro, "code");
  }
  lemma WelcomeBeforeNameLacksCode()
    ensures !Contains(WelcomeBeforeName, "code")
  {
    AbsentCharNoContains(WelcomeTitle, "code", 2);
    AbsentCharNoContains("#10B981", "code", 0);
    AbsentCharNoContains(PartyIcon, "code", 0);
    AbsentCharNoContains(" Welcome to Sponsoration!", "code", 2);
    ContainsAppendIff(PartyIcon, " Welcome to Sponsoration!", "code");
    WelcomeIntroSealsCode();
    DocumentTopSealsCode(WelcomeTitle, "#10B981", PartyIcon + " Welcome to Sponsoration!", WelcomeIntro);
  }
  lemma WelcomeThanksSealsCode()
    ensures Sealed(WelcomeThanks, "code")
  {
    AbsentCharNoContains("              <p style=\"margin: 0 0 ", "code", 0);
    var s := "              <p style=\"margin: 0 0 ";
    AbsentCharNoContains("20px 0; color: #4B5563; font-size: ", "code", 2);
    s := ExtendAfter(s, "20px 0; color: #4B5563; font-size: ", "code");
    AbsentCharNoContains("16px; line-height: 1.5;\">\n", "code", 0);
    s := ExtendAfter(s, "16px; line-height: 1.5;\">\n", "code");
    AbsentCharNoContains("                Thank you for ", "code", 0);
    s := ExtendAfter(s, "                Thank you for ", "code");
    AbsentCharNoContains("joining our community! We're ", "code", 2);
    s := ExtendAfter(s, "joining our community! We're ", "code");
    AbsentPairNoContains("excited to have you on board.\n", "code", 0);
    s := ExtendAfter(s, "excited to have you on board.\n", "code");
    AbsentCharNoContains("              </p>\n", "code", 0);
    s := ExtendAfter(s, "              </p>\n", "code");
  }
  lemma WelcomeGetStartedSealsCode()
    ensures Sealed(WelcomeGetStarted, "code")
  {
    AbsentCharNoContains("              <p style=\"margin: 0 0 ", "code", 0);
    var s := "              <p style=\"margin: 0 0 ";
    AbsentCharNoContains("30px 0; color: #4B5563; font-size: ", "code", 2);
    s := ExtendAfter(s, "30px 0; color: #4B5563; font-size: ", "code");
    AbsentCharNoContains("16px; line-height: 1.5;\">\n", "code", 0);
    s := ExtendAfter(s, "16px; line-height: 1.5;\">\n", "code");
    AbsentCharNoContains("                Get started by ", "code", 0);
    s := ExtendAfter(s, "                Get started by ", "code");
    AbsentPairNoContains("completing your profile and ", "code", 1);
    s := ExtendAfter(s, "completing your profile and ", "code");
    AbsentCharNoContains("exploring the platform.\n", "code", 0);
    s := ExtendAfter(s, "exploring the platform.\n", "code");
    AbsentCharNoContains("              </p>\n", "code", 0);
    s := ExtendAfter(s, "              </p>\n", "code");
  }
  lemma ButtonAreaOpenSealsCode()
    ensures Sealed(ButtonAreaOpen, "code")
  {
    AbsentCharNoContains("\n", "code", 0);
    var s := "\n";
    AbsentCharNoContains("              <!-- CTA Button -->\n", "code", 0);
    s := ExtendAfter(s, "              <!-- CTA Button -->\n", "code");
    AbsentCharNoContains("              <div ", "code", 0);
    s := ExtendAfter(s, "              <div ", "code");
    AbsentCharNoContains("style=\"text-align: center; margin: ", "code", 1);
    s := ExtendAfter(s, "style=\"text-align: center; margin: ", "code");
    AbsentCharNoContains("30px 0;\">\n", "code", 0);
    s := ExtendAfter(s, "30px 0;\">\n", "code");
    AbsentCharNoContains("                ", "code", 0);
    s := ExtendAfter(s, "                ", "code");
  }
  lemma WelcomeMessageSealsCode()
    ensures Sealed(WelcomeMessage, "code")
  {
    AbsentCharNoContains("</h2>\n", "code", 0);
    var s := "</h2>\n";
    WelcomeThanksSealsCode();
    s := ExtendAfter(s, WelcomeThanks, "code");
    WelcomeGetStartedSealsCode();
    s := ExtendAfter(s, WelcomeGetStarted, "code");
    ButtonAreaOpenSealsCode();
    s := ExtendAfter(s, ButtonAreaOpen, "code");
  }
  lemma WelcomeBeforeDashboardLinkLacksCode()
    ensures !Contains(WelcomeBeforeDashboardLink, "code")
  {
    AbsentCharNoContains(",", "code", 0);
    var s := ",";
    WelcomeMessageSealsCode();
    s := ExtendAfter(s, WelcomeMessage, "code");
    AbsentCharNoContains(HrefOpen, "code", 0);
    s := ExtendAfter(s, HrefOpen, "code");
  }
  lemma DashboardButtonOpenSealsCode()
    ensures Sealed(DashboardButtonOpen, "code")
  {
    AbsentCharNoContains("\n", "code", 0);
    var s := "\n";
    AbsentCharNoContains("                   style=\"display: ", "code", 0);
    s := ExtendAfter(s, "                   style=\"display: ", "code");
    AbsentPairNoContains("inline-block; background-color: ", "code", 1);
    s := ExtendAfter(s, "inline-block; background-color: ", "code");
    AbsentCharNoContains("#10B981; color: #ffffff; ", "code", 2);
    s := ExtendAfter(s, "#10B981; color: #ffffff; ", "code");
    AbsentPairNoContains("text-decoration: none; padding: ", "code", 1);
    s := ExtendAfter(s, "text-decoration: none; padding: ", "code");
    AbsentCharNoContains("15px 30px; border-radius: 6px; ", "code", 0);
    s := ExtendAfter(s, "15px 30px; border-radius: 6px; ", "code");
    AbsentCharNoContains("font-weight: bold; font-size: ", "code", 0);
    s := ExtendAfter(s, "font-weight: bold; font-size: ", "code");
    AbsentCharNoContains("16px;\">\n", "code", 0);
    s := ExtendAfter(s, "16px;\">\n", "code");
    AbsentCharNoContains("                  ", "code", 0);
    s := ExtendAfter(s, "                  ", "code");
  }
  lemma DashboardButtonCloseSealsCode()
    ensures Sealed(DashboardButtonClose, "code")
  {
    AbsentCharNoContains("\n", "code", 0);
    var s := "\n";
    AbsentCharNoContains("                </a>\n", "code", 0);
    s := ExtendAfter(s, "                </a>\n", "code");
    AbsentCharNoContains("              </div>\n", "code", 0);
    s := ExtendAfter(s, "              </div>\n", "code");
    AbsentCharNoContains("\n", "code", 0);
    s := ExtendAfter(s, "\n", "code");
    AbsentCharNoContains("              <p style=\"margin: ", "code", 0);
    s := ExtendAfter(s, "              <p style=\"margin: ", "code");
    AbsentCharNoContains("30px 0 0 0; color: #6B7280; ", "code", 2);
    s := ExtendAfter(s, "30px 0 0 0; color: #6B7280; ", "code");
    AbsentCharNoContains("font-size: 14px; line-height: ", "code", 0);
    s := ExtendAfter(s, "font-size: 14px; line-height: ", "code");
    AbsentCharNoContains("1.5;\">\n", "code", 0);
    s := ExtendAfter(s, "1.5;\">\n", "code");
    AbsentCharNoContains("                Best regards,<br>\n", "code", 0);
    s := ExtendAfter(s, "                Best regards,<br>\n", "code");
    AbsentCharNoContains("                <strong>The ", "code", 0);
    s := ExtendAfter(s, "                <strong>The ", "code");
    AbsentCharNoContains("Sponsoration Team</strong>\n", "code", 0);
    s := ExtendAfter(s, "Sponsoration Team</strong>\n", "code");
    AbsentCharNoContains("              </p>\n", "code", 0);
    s := ExtendAfter(s, "              </p>\n", "code");
    AbsentCharNoContains("            </td>\n", "code", 0);
    s := ExtendAfter(s, "            </td>\n", "code");
    AbsentCharNoContains("          </tr>\n", "code", 0);
    s := ExtendAfter(s, "          </tr>\n", "code");
    AbsentCharNoContains("\n", "code", 0);
    s := ExtendAfter(s, "\n", "code");
  }
  lemma DashboardButtonSealsCode()
    ensures Sealed(DashboardButton, "code")
  {
    DashboardButtonOpenSealsCode();
    var s := DashboardButtonOpen;
    AbsentCharNoContains(DashboardLabel, "code", 0);
    s := ExtendAfter(s, DashboardLabel, "code");
    DashboardButtonCloseSealsCode();
    s := ExtendBefore(s, DashboardButtonClose, "code");
  }
  lemma WelcomeFooterOpenSealsCode()
    ensures Sealed(WelcomeFooterOpen, "code")
  {
    AbsentCharNoContains("          <!-- Footer -->\n", "code", 0);
    var s := "          <!-- Footer -->\n";
    AbsentCharNoContains("          <tr>\n", "code", 0);
    s := ExtendAfter(s, "          <tr>\n", "code");
    AbsentCharNoContains("            <td ", "code", 0);
    s := ExtendAfter(s, "            <td ", "code");
    AbsentPairNoContains("style=\"background-color: #F9FAFB; ", "code", 1);
    s := ExtendAfter(s, "style=\"background-color: #F9FAFB; ", "code");
    AbsentCharNoContains("padding: 30px 40px; text-align: ", "code", 0);
    s := ExtendAfter(s, "padding: 30px 40px; text-align: ", "code");
    AbsentPairNoContains("center; border-top: 1px solid ", "code", 0);
    s := ExtendAfter(s, "center; border-top: 1px solid ", "code");
    AbsentCharNoContains("#E5E7EB;\">\n", "code", 0);
    s := ExtendAfter(s, "#E5E7EB;\">\n", "code");
    AbsentCharNoContains("              <p style=\"margin: 0 0 ", "code", 0);
    s := ExtendAfter(s, "              <p style=\"margin: 0 0 ", "code");
    AbsentCharNoContains("10px 0; color: #9CA3AF; font-size: ", "code", 2);
    s := ExtendAfter(s, "10px 0; color: #9CA3AF; font-size: ", "code");
    AbsentCharNoContains("12px;\">\n", "code", 0);
    s := ExtendAfter(s, "12px;\">\n", "code");
    AbsentCharNoContains("                ", "code", 0);
    s := ExtendAfter(s, "                ", "code");
    AbsentCharNoContains(CopyrightSign, "code", 0);
    s := ExtendAfter(s, CopyrightSign, "code");
  }
  lemma WelcomeBeforeYearLacksCode()
    ensures !Contains(WelcomeBeforeYear, "code")
  {
    AbsentCharNoContains("\"", "code", 0);
    var s := "\"";
    DashboardButtonSealsCode();
    s := ExtendAfter(s, DashboardButton, "code");
    WelcomeFooterOpenSealsCode();
    s := ExtendAfter(s, WelcomeFooterOpen, "code");
  }
  lemma FooterLinksLeadSealsCode()
    ensures Sealed(FooterLinksLead, "code")
  {
    AbsentCharNoContains("\n", "code", 0);
    var s := "\n";
    AbsentCharNoContains("              </p>\n", "code", 0);
    s := ExtendAfter(s, "              </p>\n", "code");
    AbsentCharNoContains("              <p style=\"margin: 0; ", "code", 0);
    s := ExtendAfter(s, "              <p style=\"margin: 0; ", "code");
    AbsentCharNoContains("color: #9CA3AF; font-size: 12px;\">\n", "code", 2);
    s := ExtendAfter(s, "color: #9CA3AF; font-size: 12px;\">\n", "code");
    AbsentCharNoContains("                ", "code", 0);
    s := ExtendAfter(s, "                ", "code");
  }
  lemma WelcomeBeforePolicyLinkLacksCode()
    ensures !Contains(WelcomeBeforePolicyLink, "code")
  {
    AbsentCharNoContains(RightsReserved, "code", 0);
    var s := RightsReserved;
    FooterLinksLeadSealsCode();
    s := ExtendAfter(s, FooterLinksLead, "code");
    AbsentCharNoContains(HrefOpen, "code", 0);
    s := ExtendAfter(s, HrefOpen, "code");
  }
  lemma PolicyLinkTextSealsCode()
    ensures Sealed(PolicyLinkText, "code")
  {
    AbsentCharNoContains("\" style=\"color: #6B7280; ", "code", 2);
    var s := "\" style=\"color: #6B7280; ";
    AbsentPairNoContains("text-decoration: none;\">Privacy ", "code", 1);
    s := ExtendAfter(s, "text-decoration: none;\">Privacy ", "code");
    AbsentCharNoContains("Policy</a> \U{2022}\n", "code", 2);
    s := ExtendAfter(s, "Policy</a> \U{2022}\n", "code");
    AbsentCharNoContains("                ", "code", 0);
    s := ExtendAfter(s, "                ", "code");
  }
  lemma WelcomeBeforeTermsLinkLacksCode()
    ensures !Contains(WelcomeBeforeTermsLink, "code")
  {
    AbsentCharNoContains(PolicyPath, "code", 2);
    var s := PolicyPath;
    PolicyLinkTextSealsCode();
    s := ExtendAfter(s, PolicyLinkText, "code");
    AbsentCharNoContains(HrefOpen, "code", 0);
    s := ExtendAfter(s, HrefOpen, "code");
  }
  lemma TermsLinkTextSealsCode()
    ensures Sealed(TermsLinkText, "code")
  {
    AbsentCharNoContains("\" style=\"color: #6B7280; ", "code", 2);
    var s := "\" style=\"color: #6B7280; ";
    AbsentPairNoContains("text-decoration: none;\">Terms of ", "code", 1);
    s := ExtendAfter(s, "text-decoration: none;\">Terms of ", "code");
    AbsentCharNoContains("Service</a>\n", "code", 1);
    s := ExtendAfter(s, "Service</a>\n", "code");
    AbsentCharNoContains("              </p>\n", "code", 0);
    s := ExtendAfter(s, "              </p>\n", "code");
    AbsentCharNoContains("            </td>\n", "code", 0);
    s := ExtendAfter(s, "            </td>\n", "code");
    AbsentCharNoContains("          </tr>\n", "code", 0);
    s := ExtendAfter(s, "          </tr>\n", "code");
  }
  lemma TableCloseSealsCode()
    ensures Sealed(TableClose, "code")
  {
    AbsentCharNoContains("        ", "code", 0);
    var s := "        ";
    AbsentCharNoContains(TableCloseTag, "code", 0);
    s := ExtendAfter(s, TableCloseTag, "code");
    AbsentCharNoContains("\n", "code", 0);
    s := ExtendAfter(s, "\n", "code");
    AbsentCharNoContains("      </td>\n", "code", 0);
    s := ExtendAfter(s, "      </td>\n", "code");
    AbsentCharNoContains("    </tr>\n", "code", 0);
    s := ExtendAfter(s, "    </tr>\n", "code");
    AbsentCharNoContains("  ", "code", 0);
    s := ExtendAfter(s, "  ", "code");
    AbsentCharNoContains(TableCloseTag, "code", 0);
    s := ExtendAfter(s, TableCloseTag, "code");
    AbsentCharNoContains("\n", "code", 0);
    s := ExtendAfter(s, "\n", "code");
    AbsentCharNoContains(BodyCloseTag, "code", 0);
    s := ExtendAfter(s, BodyCloseTag, "code");
    AbsentCharNoContains("\n", "code", 0);
    s := ExtendAfter(s, "\n", "code");
  }
  lemma DocumentClosingSealsCode()
    ensures Sealed(DocumentClosing, "code")
  {
    TableCloseSealsCode();
    var s := TableClose;
    AbsentCharNoContains(HtmlClose, "code", 0);
    s := ExtendAfter(s, HtmlClose, "code");
    AbsentCharNoContains(TrailingSpace, "code", 0);
    s := ExtendAfter(s, TrailingSpace, "code");
  }
  lemma WelcomeAfterTermsLinkLacksCode()
    ensures !Contains(WelcomeAfterTermsLink, "code")
  {
    AbsentCharNoContains(TermsPath, "code", 1);
    var s := TermsPath;
    TermsLinkTextSealsCode();
    s := ExtendAfter(s, TermsLinkText, "code");
    DocumentClosingSealsCode();
    s := ExtendAfter(s, DocumentClosing, "code");
  }
  lemma WelcomeIntroSealsVerb()
    ensures Sealed(WelcomeIntro, "%s")
  {
    SubheadingOpenSealsVerb();
    var s := SubheadingOpen;
    AbsentCharNoContains(HiPrefix, "%s", 0);
    s := ExtendAfter(s, HiPrefix, "%s");
  }
  lemma WelcomeBeforeNameLacksVerb()
    ensures !Contains(WelcomeBeforeName, "%s")
  {
    AbsentCharNoContains(WelcomeTitle, "%s", 0);
    AbsentCharNoContains("#10B981", "%s", 0);
    AbsentCharNoContains(PartyIcon, "%s", 0);
    AbsentCharNoContains(" Welcome to Sponsoration!", "%s", 0);
    ContainsAppendIff(PartyIcon, " Welcome to Sponsoration!", "%s");
    WelcomeIntroSealsVerb();
    DocumentTopSealsVerb(WelcomeTitle, "#10B981", PartyIcon + " Welcome to Sponsoration!", WelcomeIntro);
  }
  lemma WelcomeThanksSealsVerb()
    ensures Sealed(WelcomeThanks, "%s")
  {
    AbsentCharNoContains("              <p style=\"margin: 0 0 ", "%s", 0);
    var s := "              <p style=\"margin: 0 0 ";
    AbsentCharNoContains("20px 0; color: #4B5563; font-size: ", "%s", 0);
    s := ExtendAfter(s, "20px 0; color: #4B5563; font-size: ", "%s");
    AbsentCharNoContains("16px; line-height: 1.5;\">\n", "%s", 0);
    s := ExtendAfter(s, "16px; line-height: 1.5;\">\n", "%s");
    AbsentCharNoContains("                Thank you for ", "%s", 0);
    s := ExtendAfter(s, "                Thank you for ", "%s");
    AbsentCharNoContains("joining our community! We're ", "%s", 0);
    s := ExtendAfter(s, "joining our community! We're ", "%s");
    AbsentCharNoContains("excited to have you on board.\n", "%s", 0);
    s := ExtendAfter(s, "excited to have you on board.\n", "%s");
    AbsentCharNoContains("              </p>\n", "%s", 0);
    s := ExtendAfter(s, "              </p>\n", "%s");
  }
  lemma WelcomeGetStartedSealsVerb()
    ensures Sealed(WelcomeGetStarted, "%s")
  {
    AbsentCharNoContains("              <p style=\"margin: 0 0 ", "%s", 0);
    var s := "              <p style=\"margin: 0 0 ";
    AbsentCharNoContains("30px 0; color: #4B5563; font-size: ", "%s", 0);
    s := ExtendAfter(s, "30px 0; color: #4B5563; font-size: ", "%s");
    AbsentCharNoContains("16px; line-height: 1.5;\">\n", "%s", 0);
    s := ExtendAfter(s, "16px; line-height: 1.5;\">\n", "%s");
    AbsentCharNoContains("                Get started by ", "%s", 0);
    s := ExtendAfter(s, "                Get started by ", "%s");
    AbsentCharNoContains("completing your profile and ", "%s", 0);
    s := ExtendAfter(s, "completing your profile and ", "%s");
    AbsentCharNoContains("exploring the platform.\n", "%s", 0);
    s := ExtendAfter(s, "exploring the platform.\n", "%s");
    AbsentCharNoContains("              </p>\n", "%s", 0);
    s := ExtendAfter(s, "              </p>\n", "%s");
  }
  lemma ButtonAreaOpenSealsVerb()
    ensures Sealed(ButtonAreaOpen, "%s")
  {
    AbsentCharNoContains("\n", "%s", 0);
    var s := "\n";
    AbsentCharNoContains("              <!-- CTA Button -->\n", "%s", 0);
    s := ExtendAfter(s, "              <!-- CTA Button -->\n", "%s");
    AbsentCharNoContains("              <div ", "%s", 0);
    s := ExtendAfter(s, "              <div ", "%s");
    AbsentCharNoContains("style=\"text-align: center; margin: ", "%s", 0);
    s := ExtendAfter(s, "style=\"text-align: center; margin: ", "%s");
    AbsentCharNoContains("30px 0;\">\n", "%s", 0);
    s := ExtendAfter(s, "30px 0;\">\n", "%s");
    AbsentCharNoContains("                ", "%s", 0);
    s := ExtendAfter(s, "                ", "%s");
  }
  lemma WelcomeMessageSealsVerb()
    ensures Sealed(WelcomeMessage, "%s")
  {
    AbsentCharNoContains("</h2>\n", "%s", 0);
    var s := "</h2>\n";
    WelcomeThanksSealsVerb();
    s := ExtendAfter(s, WelcomeThanks, "%s");
    WelcomeGetStartedSealsVerb();
    s := ExtendAfter(s, WelcomeGetStarted, "%s");
    ButtonAreaOpenSealsVerb();
    s := ExtendAfter(s, ButtonAreaOpen, "%s");
  }
  lemma WelcomeBeforeDashboardLinkLacksVerb()
    ensures !Contains(WelcomeBeforeDashboardLink, "%s")
  {
    AbsentCharNoContains(",", "%s", 0);
    var s := ",";
    WelcomeMessageSealsVerb();
    s := ExtendAfter(s, WelcomeMessage, "%s");
    AbsentCharNoContains(HrefOpen, "%s", 0);
    s := ExtendAfter(s, HrefOpen, "%s");
  }
  lemma DashboardButtonOpenSealsVerb()
    ensures Sealed(DashboardButtonOpen, "%s")
  {
    AbsentCharNoContains("\n", "%s", 0);
    var s := "\n";
    AbsentCharNoContains("                   style=\"display: ", "%s", 0);
    s := ExtendAfter(s, "                   style=\"display: ", "%s");
    AbsentCharNoContains("inline-block; background-color: ", "%s", 0);
    s := ExtendAfter(s, "inline-block; background-color: ", "%s");
    AbsentCharNoContains("#10B981; color: #ffffff; ", "%s", 0);
    s := ExtendAfter(s, "#10B981; color: #ffffff; ", "%s");
    AbsentCharNoContains("text-decoration: none; padding: ", "%s", 0);
    s := ExtendAfter(s, "text-decoration: none; padding: ", "%s");
    AbsentCharNoContains("15px 30px; border-radius: 6px; ", "%s", 0);
    s := ExtendAfter(s, "15px 30px; border-radius: 6px; ", "%s");
    AbsentCharNoContains("font-weight: bold; font-size: ", "%s", 0);
    s := ExtendAfter(s, "font-weight: bold; font-size: ", "%s");
    AbsentCharNoContains("16px;\">\n", "%s", 0);
    s := ExtendAfter(s, "16px;\">\n", "%s");
    AbsentCharNoContains("                  ", "%s", 0);
    s := ExtendAfter(s, "                  ", "%s");
  }
  lemma DashboardButtonCloseSealsVerb()
    ensures Sealed(DashboardButtonClose, "%s")
  {
    AbsentCharNoContains("\n", "%s", 0);
    var s := "\n";
    AbsentCharNoContains("                </a>\n", "%s", 0);
    s := ExtendAfter(s, "                </a>\n", "%s");
    AbsentCharNoContains("              </div>\n", "%s", 0);
    s := ExtendAfter(s, "              </div>\n", "%s");
    AbsentCharNoContains("\n", "%s", 0);
    s := ExtendAfter(s, "\n", "%s");
    AbsentCharNoContains("              <p style=\"margin: ", "%s", 0);
    s := ExtendAfter(s, "              <p style=\"margin: ", "%s");
    AbsentCharNoContains("30px 0 0 0; color: #6B7280; ", "%s", 0);
    s := ExtendAfter(s, "30px 0 0 0; color: #6B7280; ", "%s");
    AbsentCharNoContains("font-size: 14px; line-height: ", "%s", 0);
    s := ExtendAfter(s, "font-size: 14px; line-height: ", "%s");
    AbsentCharNoContains("1.5;\">\n", "%s", 0);
    s := ExtendAfter(s, "1.5;\">\n", "%s");
    AbsentCharNoContains("                Best regards,<br>\n", "%s", 0);
    s := ExtendAfter(s, "                Best regards,<br>\n", "%s");
    AbsentCharNoContains("                <strong>The ", "%s", 0);
    s := ExtendAfter(s, "                <strong>The ", "%s");
    AbsentCharNoContains("Sponsoration Team</strong>\n", "%s", 0);
    s := ExtendAfter(s, "Sponsoration Team</strong>\n", "%s");
    AbsentCharNoContains("              </p>\n", "%s", 0);
    s := ExtendAfter(s, "              </p>\n", "%s");
    AbsentCharNoContains("            </td>\n", "%s", 0);
    s := ExtendAfter(s, "            </td>\n", "%s");
    AbsentCharNoContains("          </tr>\n", "%s", 0);
    s := ExtendAfter(s, "          </tr>\n", "%s");
    AbsentCharNoContains("\n", "%s", 0);
    s := ExtendAfter(s, "\n", "%s");
  }
  lemma DashboardButtonSealsVerb()
    ensures Sealed(DashboardButton, "%s")
  {
    DashboardButtonOpenSealsVerb();
    var s := DashboardButtonOpen;
    AbsentCharNoContains(DashboardLabel, "%s", 0);
    s := ExtendAfter(s, DashboardLabel, "%s");
    DashboardButtonCloseSealsVerb();
    s := ExtendAfter(s, DashboardButtonClose, "%s");
  }
  lemma WelcomeFooterOpenSealsVerb()
    ensures Sealed(WelcomeFooterOpen, "%s")
  {
    AbsentCharNoContains("          <!-- Footer -->\n", "%s", 0);
    var s := "          <!-- Footer -->\n";
    AbsentCharNoContains("          <tr>\n", "%s", 0);
    s := ExtendAfter(s, "          <tr>\n", "%s");
    AbsentCharNoContains("            <td ", "%s", 0);
    s := ExtendAfter(s, "            <td ", "%s");
    AbsentCharNoContains("style=\"background-color: #F9FAFB; ", "%s", 0);
    s := ExtendAfter(s, "style=\"background-color: #F9FAFB; ", "%s");
    AbsentCharNoContains("padding: 30px 40px; text-align: ", "%s", 0);
    s := ExtendAfter(s, "padding: 30px 40px; text-align: ", "%s");
    AbsentCharNoContains("center; border-top: 1px solid ", "%s", 0);
    s := ExtendAfter(s, "center; border-top: 1px solid ", "%s");
    AbsentCharNoContains("#E5E7EB;\">\n", "%s", 0);
    s := ExtendAfter(s, "#E5E7EB;\">\n", "%s");
    AbsentCharNoContains("              <p style=\"margin: 0 0 ", "%s", 0);
    s := ExtendAfter(s, "              <p style=\"margin: 0 0 ", "%s");
    AbsentCharNoContains("10px 0; color: #9CA3AF; font-size: ", "%s", 0);
    s := ExtendAfter(s, "10px 0; color: #9CA3AF; font-size: ", "%s");
    AbsentCharNoContains("12px;\">\n", "%s", 0);
    s := ExtendAfter(s, "12px;\">\n", "%s");
    AbsentCharNoContains("                ", "%s", 0);
    s := ExtendAfter(s, "                ", "%s");
    AbsentCharNoContains(CopyrightSign, "%s", 0);
    s := ExtendAfter(s, CopyrightSign, "%s");
  }
  lemma WelcomeBeforeYearLacksVerb()
    ensures !Contains(WelcomeBeforeYear, "%s")
  {
    AbsentCharNoContains("\"", "%s", 0);
    var s := "\"";
    DashboardButtonSealsVerb();
    s := ExtendAfter(s, DashboardButton, "%s");
    WelcomeFooterOpenSealsVerb();
    s := ExtendAfter(s, WelcomeFooterOpen, "%s");
  }
  lemma FooterLinksLeadSealsVerb()
    ensures Sealed(FooterLinksLead, "%s")
  {
    AbsentCharNoContains("\n", "%s", 0);
    var s := "\n";
    AbsentCharNoContains("              </p>\n", "%s", 0);
    s := ExtendAfter(s, "              </p>\n", "%s");
    AbsentCharNoContains("              <p style=\"margin: 0; ", "%s", 0);
    s := ExtendAfter(s, "              <p style=\"margin: 0; ", "%s");
    AbsentCharNoContains("color: #9CA3AF; font-size: 12px;\">\n", "%s", 0);
    s := ExtendAfter(s, "color: #9CA3AF; font-size: 12px;\">\n", "%s");
    AbsentCharNoContains("                ", "%s", 0);
    s := ExtendAfter(s, "                ", "%s");
  }
  lemma WelcomeBeforePolicyLinkLacksVerb()
    ensures !Contains(WelcomeBeforePolicyLink, "%s")
  {
    AbsentCharNoContains(RightsReserved, "%s", 0);
    var s := RightsReserved;
    FooterLinksLeadSealsVerb();
    s := ExtendAfter(s, FooterLinksLead, "%s");
    AbsentCharNoContains(HrefOpen, "%s", 0);
    s := ExtendAfter(s, HrefOpen, "%s");
  }
  lemma PolicyLinkTextSealsVerb()
    ensures Sealed(PolicyLinkText, "%s")
  {
    AbsentCharNoContains("\" style=\"color: #6B7280; ", "%s", 0);
    var s := "\" style=\"color: #6B7280; ";
    AbsentCharNoContains("text-decoration: none;\">Privacy ", "%s", 0);
    s := ExtendAfter(s, "text-decoration: none;\">Privacy ", "%s");
    AbsentCharNoContains("Policy</a> \U{2022}\n", "%s", 0);
    s := ExtendAfter(s, "Policy</a> \U{2022}\n", "%s");
    AbsentCharNoContains("                ", "%s", 0);
    s := ExtendAfter(s, "                ", "%s");
  }
  lemma WelcomeBeforeTermsLinkLacksVerb()
    ensures !Contains(WelcomeBeforeTermsLink, "%s")
  {
    AbsentCharNoContains(PolicyPath, "%s", 0);
    var s := PolicyPath;
    PolicyLinkTextSealsVerb();
    s := ExtendAfter(s, PolicyLinkText, "%s");
    AbsentCharNoContains(HrefOpen, "%s", 0);
    s := ExtendAfter(s, HrefOpen, "%s");
  }
  lemma TermsLinkTextSealsVerb()
    ensures Sealed(TermsLinkText, "%s")
  {
    AbsentCharNoContains("\" style=\"color: #6B7280; ", "%s", 0);
    var s := "\" style=\"color: #6B7280; ";
    AbsentCharNoContains("text-decoration: none;\">Terms of ", "%s", 0);
    s := ExtendAfter(s, "text-decoration: none;\">Terms of ", "%s");
    AbsentCharNoContains("Service</a>\n", "%s", 0);
    s := ExtendAfter(s, "Service</a>\n", "%s");
    AbsentCharNoContains("              </p>\n", "%s", 0);
    s := ExtendAfter(s, "              </p>\n", "%s");
    AbsentCharNoContains("            </td>\n", "%s", 0);
    s := ExtendAfter(s, "            </td>\n", "%s");
    AbsentCharNoContains("          </tr>\n", "%s", 0);
    s := ExtendAfter(s, "          </tr>\n", "%s");
  }
  lemma WelcomeAfterTermsLinkLacksVerb()
    ensures !Contains(WelcomeAfterTermsLink, "%s")
  {
    AbsentCharNoContains(TermsPath, "%s", 0);
    var s := TermsPath;
    TermsLinkTextSealsVerb();
    s := ExtendBefore(s, TermsLinkText, "%s");
    DocumentClosingSealsVerb();
    s := ExtendAfter(s, DocumentClosing, "%s");
  }

}
