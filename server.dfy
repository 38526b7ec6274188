/**
 * The chat server: the ordered keyword dispatch that picks a canned answer when no
 * AI reply is available, and the `/api/chat` handler around it.
 */
module Server {
  import opened Wrappers
  import opened Text

  // ---------------------------------------------------------------------------
  // Topics and the keyword dispatch
  // ---------------------------------------------------------------------------

  /** The canned answers, in the order their keyword tests are tried. */
  datatype Topic = DebitCard | EmiLoan | CreditCard | Scam | Budget | Investment | EmergencyFund | General {
    /** Position of the topic's keyword test in the dispatch. */
    function Rank(): nat {
      match this
      case DebitCard => 0
      case EmiLoan => 1
      case CreditCard => 2
      case Scam => 3
      case Budget => 4
      case Investment => 5
      case EmergencyFund => 6
      case General => 7
    }
  }

  /** The topic's keyword test, on the lower-cased query; the general answer accepts every query. */
  ghost predicate Matches(t: Topic, lower: string) {
    match t
    case DebitCard => Occurs(lower, "debit") && Occurs(lower, "card")
    case EmiLoan => Occurs(lower, "emi") || Occurs(lower, "loan")
    case CreditCard => Occurs(lower, "credit card")
    case Scam => Occurs(lower, "scam") || Occurs(lower, "fraud")
    case Budget => Occurs(lower, "save") || Occurs(lower, "budget")
    case Investment => Occurs(lower, "investment") || Occurs(lower, "invest")
    case EmergencyFund => Occurs(lower, "emergency fund")
    case General => true
  }

  /** The topic chosen for a query: the first one, in dispatch order, whose test the lower-cased query passes. */
  function SelectTopic(query: string): (t: Topic)
    ensures Matches(t, ToLower(query))
    ensures forall u: Topic :: u.Rank() < t.Rank() ==> !Matches(u, ToLower(query))
  {
    var lowerQuery := ToLower(query);
    if Contains(lowerQuery, "debit") && Contains(lowerQuery, "card") then DebitCard
    else if Contains(lowerQuery, "emi") || Contains(lowerQuery, "loan") then EmiLoan
    else if Contains(lowerQuery, "credit card") then CreditCard
    else if Contains(lowerQuery, "scam") || Contains(lowerQuery, "fraud") then Scam
    else if Contains(lowerQuery, "save") || Contains(lowerQuery, "budget") then Budget
    else if Contains(lowerQuery, "investment") || Contains(lowerQuery, "invest") then Investment
    else if Contains(lowerQuery, "emergency fund") then EmergencyFund
    else General
  }

  /** The first-match rule determines the topic: any topic that matches, with no earlier topic matching, is the one chosen. */
  lemma SelectTopicIsFirstMatch(query: string, t: Topic)
    requires Matches(t, ToLower(query))
    requires forall u: Topic :: u.Rank() < t.Rank() ==> !Matches(u, ToLower(query))
    ensures SelectTopic(query) == t
  {
    var chosen := SelectTopic(query);
    assert !(chosen.Rank() < t.Rank());
    assert !(t.Rank() < chosen.Rank());
  }

  /** For a query without ASCII capitals, the first-match rule applies to the query itself. */
  lemma FirstMatchWithoutCapitals(query: string, t: Topic)
    requires forall i :: 0 <= i < |query| ==> !('A' <= query[i] <= 'Z')
    requires Matches(t, query)
    requires forall u: Topic :: u.Rank() < t.Rank() ==> !Matches(u, query)
    ensures SelectTopic(query) == t
  {
    ToLowerNoCapitals(query);
    SelectTopicIsFirstMatch(query, t);
  }

  /** The general answer is chosen exactly when no keyword test accepts the query. */
  lemma GeneralOnlyWithoutKeyword(query: string)
    ensures SelectTopic(query) == General <==> forall t: Topic :: t != General ==> !Matches(t, ToLower(query))
  {
    var chosen := SelectTopic(query);
    if chosen != General {
      assert Matches(chosen, ToLower(query));
    }
  }

  /** Queries that differ only in the case of ASCII letters get the same topic. */
  lemma TopicIgnoresCase(a: string, b: string)
    requires SameIgnoringAsciiCase(a, b)
    ensures SelectTopic(a) == SelectTopic(b)
  {
    SameIgnoringCaseLowersEqual(a, b);
  }

  /** A query naming both "debit" and "card" always gets the debit-card answer, whatever else it says. */
  lemma DebitCardWins(query: string)
    requires Occurs(ToLower(query), "debit") && Occurs(ToLower(query), "card")
    ensures SelectTopic(query) == DebitCard
  {
    SelectTopicIsFirstMatch(query, DebitCard);
  }

  /**
   * "emi" and "loan" are tested before "credit card": a credit-card question that also
   * holds either of them (as any substring) gets the EMI answer, unless it says "debit".
   */
  lemma EmiShadowsCreditCard(query: string)
    requires Occurs(ToLower(query), "credit card")
    requires Occurs(ToLower(query), "emi") || Occurs(ToLower(query), "loan")
    requires !Occurs(ToLower(query), "debit")
    ensures SelectTopic(query) == EmiLoan
  {
    SelectTopicIsFirstMatch(query, EmiLoan);
  }

  /** A query mentioning saving never reaches the emergency-fund answer, which is tested after it. */
  lemma SaveShadowsEmergencyFund(query: string)
    requires Occurs(ToLower(query), "save")
    ensures SelectTopic(query) != EmergencyFund
  {
  }

  /** Every query that holds "investment" also holds "invest", so the first of the two investment tests never decides anything. */
  lemma InvestmentKeywordIsRedundant(lower: string)
    ensures Occurs(lower, "investment") ==> Occurs(lower, "invest")
  {
    if Occurs(lower, "investment") {
      var i :| OccursAt(lower, "investment", i);
      assert lower[i..i + 6] == lower[i..i + 10][..6];
      assert OccursAt(lower, "invest", i);
    }
  }

  /** "premium" holds "emi", so "premium credit card" gets the EMI answer. */
  lemma PremiumCreditCardGetsEmiAnswer()
    ensures SelectTopic("premium credit card") == EmiLoan
  {
    var q := "premium credit card";
    OccursWitness(q, "emi", 2);
    OccursWitness(q, "credit card", 8);
    MissingLetter(q, "debit", 'b');
    FirstMatchWithoutCapitals(q, EmiLoan);
  }

  /** "credit card loan" gets the EMI answer, not the credit-card one. */
  lemma CreditCardLoanGetsEmiAnswer()
    ensures SelectTopic("credit card loan") == EmiLoan
  {
    var q := "credit card loan";
    OccursWitness(q, "loan", 12);
    OccursWitness(q, "credit card", 0);
    MissingLetter(q, "debit", 'b');
    FirstMatchWithoutCapitals(q, EmiLoan);
  }

  // The examples below take their query as a parameter pinned by `requires`:
  // this keeps the lower-casing of the literal out of the solver's context.

  /** A lower-case credit-card question, without "emi", "loan" or "debit", gets the credit-card answer. */
  lemma CreditCardQuestionGetsCreditCardAnswer(q: string)
    requires q == "how do i apply for a credit card?"
    ensures SelectTopic(q) == CreditCard
  {
    QuestionKeywords(q);
    QuestionHasNoCapitals(q);
    FirstMatchWithoutCapitals(q, CreditCard);
  }

  /** Which keywords the credit-card question holds: "credit card", and none of "debit", "emi", "loan". */
  lemma QuestionKeywords(q: string)
    requires q == "how do i apply for a credit card?"
    ensures Occurs(q, "credit card") && !Occurs(q, "debit") && !Occurs(q, "emi") && !Occurs(q, "loan")
  {
    OccursWitness(q, "credit card", 21);
    MissingLetter(q, "debit", 'b');
    MissingLetter(q, "emi", 'm');
    MissingLetter(q, "loan", 'n');
  }

  /** The credit-card question has no ASCII capital, so lower-casing leaves it as it is. */
  lemma QuestionHasNoCapitals(q: string)
    requires q == "how do i apply for a credit card?"
    ensures forall i :: 0 <= i < |q| ==> !('A' <= q[i] <= 'Z')
  {
  }

  /** The same question with capitals gets the same answer. */
  lemma CapitalisedQuestionGetsSameAnswer(query: string)
    requires query == "How do I apply for a credit card?"
    ensures SelectTopic(query) == CreditCard
  {
    var lower := "how do i apply for a credit card?";
    assert SameIgnoringAsciiCase(query, lower);
    CreditCardQuestionGetsCreditCardAnswer(lower);
    TopicIgnoresCase(query, lower);
  }

  // ---------------------------------------------------------------------------
  // The canned answers
  // ---------------------------------------------------------------------------

  /** Reply to questions about debit cards. */
  const DebitCardReply: string :=
    "\U{1F4B3} **Debit Card Basics for Students**\n\n"
    + "A debit card is directly linked to your bank account. Money is deducted immediately when you use it.\n\n"
    + "\U{2705} **Advantages:**\n\U{2022} Safer than carrying cash\n\U{2022} Helps control spending (can't spend more than you have)\n\U{2022} Use for online shopping, bill payments\n\U{2022} Track expenses via bank statements\n\n"
    + "\U{1F512} **Security Tips:**\n\U{2022} Never share your PIN with anyone\n\U{2022} Enable SMS alerts for all transactions\n\U{2022} Use at trusted ATMs only\n\U{2022} Report lost cards immediately\n\n"
    + "\U{1F4F1} **For Students:** Start with a basic savings account with debit card. Most banks offer zero-balance accounts for students."

  /** Reply to questions about EMIs and loans. */
  const EmiLoanReply: string :=
    "\U{1F4CB} **EMI (Equated Monthly Installment) Guide**\n\n"
    + "EMI is your fixed monthly loan payment that includes both principal and interest.\n\n"
    + "\U{1F4A1} **Smart EMI Rules for Students:**\n\U{2022} Keep total EMIs below 30% of your income\n\U{2022} Example: \U{20B9}25,000 monthly income \U{2192} \U{20B9}7,500 max EMI\n\U{2022} Use online EMI calculators before committing\n\U{2022} Compare interest rates from different banks\n\n"
    + "\U{1F4CA} **Example Calculation:**\n\U{2022} Loan: \U{20B9}50,000 at 12% interest for 2 years\n\U{2022} EMI: \U{20B9}2,355 per month\n\U{2022} Total Interest: \U{20B9}6,520\n\U{2022} Total Payment: \U{20B9}56,520\n\n"
    + "\U{26A0}\U{FE0F} **Warning:** Avoid multiple EMIs simultaneously. Always read loan terms carefully."

  /** Reply to questions about credit cards. */
  const CreditCardReply: string :=
    "\U{1F4B3} **Credit Cards: Student Edition**\n\n"
    + "Credit cards let you borrow money up to a credit limit. Interest rates: 18-42% annually in India.\n\n"
    + "\U{2705} **When to Use:**\n\U{2022} Building credit history (important for future loans)\n\U{2022} Emergency expenses only\n\U{2022} Online purchases (better security than debit cards)\n\U{2022} Reward points on spending\n\n"
    + "\U{274C} **Dangers for Students:**\n\U{2022} Easy to overspend beyond your means\n\U{2022} High interest if you don't pay full amount\n\U{2022} Minimum payment trap (paying just minimum keeps debt growing)\n\U{2022} Late payment fees and credit score damage\n\n"
    + "\U{1F6E1}\U{FE0F} **Safety Rules:**\n1. Set a spending limit of 30% of your credit limit\n2. ALWAYS pay full balance by due date\n3. Never use for cash withdrawals (high charges)\n4. Monitor transactions weekly via bank app\n5. Report lost cards immediately\n\n"
    + "\U{1F4A1} **Student Tip:** Start with a secured credit card or low-limit card (\U{20B9}10,000-20,000)."

  /** Reply to questions about scams and fraud. */
  const ScamReply: string :=
    "\U{26A0}\U{FE0F} **Common Financial Scams Targeting Students**\n\n"
    + "1. **Fake Job/Internship Offers:**\n   \U{2022} \"Pay \U{20B9}2,000 registration fee for work-from-home job\"\n   \U{2022} \"Processing fee for guaranteed placement\"\n\n"
    + "2. **Scholarship Fraud:**\n   \U{2022} \"Pay \U{20B9}500 to get \U{20B9}50,000 scholarship\"\n   \U{2022} \"Exclusive scholarship for limited students\"\n\n"
    + "3. **Bank Phishing:**\n   \U{2022} \"Your account is blocked. Click link to verify\"\n   \U{2022} \"Update KYC or account will be suspended\"\n\n"
    + "4. **Investment Scams:**\n   \U{2022} \"Double your money in 30 days\"\n   \U{2022} \"Guaranteed returns of 50% monthly\"\n\n"
    + "\U{1F6E1}\U{FE0F} **Protection Guide:**\n\U{2022} Never share OTP/PIN/CVV with ANYONE\n\U{2022} Verify offers through official college/bank channels\n\U{2022} Check sender's number/email carefully\n\U{2022} Use UPI for payments (more secure)\n\U{2022} Report scams to cybercrime.gov.in\n\n"
    + "\U{1F4DE} **Emergency Contacts:**\n\U{2022} Cyber Crime Helpline: 1930\n\U{2022} National Cyber Crime Portal: cybercrime.gov.in"

  /** Reply to questions about saving and budgeting. */
  const BudgetReply: string :=
    "\U{1F4B0} **Simple Budgeting for Students (Monthly Guide)**\n\n"
    + "\U{1F4CA} **50-30-20 Rule:**\n\U{2022} **50% Needs:** Rent, food, transport, utilities\n\U{2022} **30% Wants:** Movies, eating out, shopping, hobbies\n\U{2022} **20% Savings:** Emergency fund, investments, goals\n\n"
    + "\U{1F4A1} **Practical Student Tips:**\n1. **Track EVERY expense for 1 month** (use Notes app)\n2. **Cook 5 days/week**, eat out 2 days (save \U{20B9}3,000-5,000/month)\n3. **Use public transport** instead of cabs (save \U{20B9}2,000-4,000/month)\n4. **Share subscriptions** (Netflix, Amazon Prime with friends)\n5. **Buy second-hand textbooks** or use library\n6. **Use student discounts** everywhere (theaters, museums, transport)\n\n"
    + "\U{1F3AF} **Sample Student Budget (\U{20B9}25,000/month):**\n\U{2022} Rent/Hostel: \U{20B9}8,000 (32%)\n\U{2022} Food: \U{20B9}6,000 (24%)\n\U{2022} Transport: \U{20B9}2,000 (8%)\n\U{2022} Study Material: \U{20B9}2,000 (8%)\n\U{2022} Entertainment: \U{20B9}3,000 (12%)\n\U{2022} **SAVINGS: \U{20B9}4,000 (16%)**\n\n"
    + "\U{1F4B0} **Start with saving just \U{20B9}500-1,000/month.** Consistency matters more than amount!"

  /** Reply to questions about investing. */
  const InvestmentReply: string :=
    "\U{1F4C8} **First Investments for Students**\n\n"
    + "**Beginner-Friendly Options (Start with \U{20B9}500/month):**\n\n"
    + "1. **Recurring Deposit (RD):**\n   \U{2022} Minimum: \U{20B9}500/month\n   \U{2022} Returns: 5-7% annually\n   \U{2022} Safe, guaranteed returns\n   \U{2022} Good for short-term goals (1-5 years)\n\n"
    + "2. **Mutual Fund SIP (Systematic Investment Plan):**\n   \U{2022} Minimum: \U{20B9}500/month\n   \U{2022} Returns: 10-15% long-term (market-linked)\n   \U{2022} Choose equity funds for long-term (5+ years)\n   \U{2022} Use apps like Groww, Zerodha, Kuvera\n\n"
    + "3. **Public Provident Fund (PPF):**\n   \U{2022} Minimum: \U{20B9}500/year\n   \U{2022} Returns: 7.1% currently (tax-free)\n   \U{2022} 15-year lock-in (good for long-term)\n   \U{2022} Tax benefits under Section 80C\n\n"
    + "4. **Digital Gold:**\n   \U{2022} Start with \U{20B9}100\n   \U{2022} Easy via apps like Paytm, Google Pay\n   \U{2022} Can convert to physical gold\n   \U{2022} Good for small, regular savings\n\n"
    + "\U{26A0}\U{FE0F} **Important Rules:**\n\U{2022} Start SMALL (\U{20B9}500/month)\n\U{2022} NEVER invest in \"get rich quick\" schemes\n\U{2022} Understand what you're investing in\n\U{2022} Diversify (spread across 2-3 options)\n\U{2022} Be patient (investments need time to grow)\n\n"
    + "\U{1F4A1} **Student Strategy:** Start with RD + one SIP. Automate payments so you don't forget."

  /** Reply to questions about emergency funds. */
  const EmergencyFundReply: string :=
    "\U{1F198} **Emergency Fund for Students**\n\n"
    + "**What is it?** Money set aside for unexpected expenses (medical, travel, repairs, etc.).\n\n"
    + "\U{1F3AF} **Goal:** 3-6 months of basic expenses\n\n"
    + "**For Students:**\n\U{2022} Monthly expenses: \U{20B9}15,000\n\U{2022} Emergency fund target: \U{20B9}45,000-\U{20B9}90,000\n\n"
    + "\U{1F4B0} **How to Build:**\n1. **Start small:** Save \U{20B9}1,000/month\n2. **Use separate account:** Don't mix with regular money\n3. **Automate transfers:** Set auto-debit on salary day\n4. **Windfall money:** Put part of gifts/bonuses into emergency fund\n\n"
    + "\U{1F3E6} **Where to Keep:**\n\U{2022} **Savings account:** Easy access, low interest\n\U{2022} **Liquid mutual funds:** Better returns, easy withdrawal\n\U{2022} **Don't use:** Fixed deposits (penalty for early withdrawal)\n\n"
    + "\U{26A0}\U{FE0F} **When to Use:**\n\U{2022} Medical emergencies\n\U{2022} Family emergencies\n\U{2022} Urgent travel\n\U{2022} Essential repairs\n\n"
    + "\U{274C} **When NOT to Use:**\n\U{2022} Shopping sales\n\U{2022} Weekend trips\n\U{2022} Gadget upgrades\n\U{2022} Non-essential purchases"

  /** The general reply up to the quoted question. */
  const DefaultOpening: string :=
    "\U{1F914} I understand you're asking about: \""

  /** The general reply after the quoted question. */
  const DefaultClosing: string :=
    "\"\n\n"
    + "I'm FinSafe AI, your financial safety assistant for students and young earners in India. I can help you with:\n\n"
    + "\U{1F4B3} **Credit/Debit Cards** - Understanding risks and safe usage\n\U{1F4CB} **EMI & Loans** - Smart borrowing strategies\n\U{26A0}\U{FE0F} **Scam Prevention** - Protecting yourself from fraud\n\U{1F4B0} **Saving & Budgeting** - Managing your money effectively\n\U{1F4C8} **First Investments** - Starting your investment journey\n\U{1F198} **Emergency Funds** - Preparing for unexpected expenses\n\n"
    + "\U{1F4A1} **General advice for students:**\n1. Start tracking your expenses today\n2. Save at least 10-20% of any money you receive\n3. Avoid debt unless absolutely necessary for education\n4. Build an emergency fund before investing\n5. Learn about scams - knowledge is your best protection\n\n"
    + "Ask me anything specific about your financial situation!"

  /** The answer for a topic; the general answer quotes the query. */
  function TopicReply(t: Topic, query: string): string {
    match t
    case DebitCard => DebitCardReply
    case EmiLoan => EmiLoanReply
    case CreditCard => CreditCardReply
    case Scam => ScamReply
    case Budget => BudgetReply
    case Investment => InvestmentReply
    case EmergencyFund => EmergencyFundReply
    case General => DefaultOpening + query + DefaultClosing
  }

  /**
   * The knowledge-base answer to a query: never empty, and for a query no keyword test
   * accepts, the general answer with the query quoted verbatim right after its opening.
   */
  function MockResponse(query: string): (reply: string)
    ensures |reply| > 0
    ensures SelectTopic(query) == General ==>
      OccursAt(reply, query, |DefaultOpening|) && reply[..|DefaultOpening|] == DefaultOpening
  {
    var reply := TopicReply(SelectTopic(query), query);
    assert SelectTopic(query) == General ==> reply[|DefaultOpening|..|DefaultOpening| + |query|] == query;
    reply
  }

  /** The canned answers other than the general one depend on the query's topic only, not on its text. */
  lemma KeywordAnswersIgnoreQueryText(a: string, b: string)
    requires SelectTopic(a) == SelectTopic(b) != General
    ensures MockResponse(a) == MockResponse(b)
  {
  }

  /** A query with no keyword gets the general answer, which repeats it. */
  lemma UnknownQueryIsEchoed(q: string)
    requires q == "xyz123"
    ensures SelectTopic(q) == General
    ensures Occurs(MockResponse(q), q)
  {
    UnknownQueryHasNoKeyword(q);
    assert forall i :: 0 <= i < |q| ==> !('A' <= q[i] <= 'Z');
    FirstMatchWithoutCapitals(q, General);
    assert OccursAt(MockResponse(q), q, |DefaultOpening|);
  }

  /** "xyz123" passes none of the seven keyword tests: each keyword has a letter the query lacks. */
  lemma UnknownQueryHasNoKeyword(q: string)
    requires q == "xyz123"
    ensures forall t: Topic :: t != General ==> !Matches(t, q)
  {
    MissingLetter(q, "debit", 'd');
    MissingLetter(q, "emi", 'e');
    MissingLetter(q, "loan", 'l');
    MissingLetter(q, "credit card", 'c');
    MissingLetter(q, "scam", 's');
    MissingLetter(q, "fraud", 'f');
    MissingLetter(q, "save", 's');
    MissingLetter(q, "budget", 'b');
    MissingLetter(q, "investment", 'i');
    MissingLetter(q, "invest", 'i');
    MissingLetter(q, "emergency fund", 'e');
  }

  // ---------------------------------------------------------------------------
  // The chat endpoint
  // ---------------------------------------------------------------------------

  /** Where a chat reply came from. */
  datatype Mode = Ai | EnhancedMock | Error

  datatype ChatResponse = ChatResponse(status: nat, reply: string, mode: Mode)

  /**
   * The chat handler. `aiReply` is the chat-completion service's answer to the message, or
   * `None` when no service is configured or the call failed; either way the knowledge base answers.
   */
  method Chat(message: Option<string>, aiReply: Option<string>) returns (res: ChatResponse)
    ensures IsBlankMessage(message) ==> res == ChatResponse(400, "Please enter a question.", Error)
    ensures !IsBlankMessage(message) ==> res.status == 200 && res.mode != Error
    ensures !IsBlankMessage(message) && aiReply.Some? ==> res == ChatResponse(200, aiReply.value, Ai)
    ensures !IsBlankMessage(message) && aiReply.None? ==>
      res == ChatResponse(200, MockResponse(message.value), EnhancedMock) && |res.reply| > 0
  {
    if message.None? || Trim(message.value) == [] {
      return ChatResponse(400, "Please enter a question.", Error);
    }
    if aiReply.Some? {
      return ChatResponse(200, aiReply.value, Ai);
    }
    var mockResponse := MockResponse(message.value);
    res := ChatResponse(200, mockResponse, EnhancedMock);
  }
}
