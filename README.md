# FinSafe AI: reply parsing, verdicts and canned advice, in Dafny

FinSafe AI is a small Node.js service for students. It has two pieces of real logic, and this project models both and proves properties about them.

1. **The scam-check endpoint** (`api/scam-check.js`).
   - A generative model answers a prompt built from the user's message.
   - The handler reads that answer line by line. Two flags track which section it is in: outside, "explanation" or "safety tips".
   - Explanation lines are gathered into one paragraph. Bulleted or numbered lines in the tips section become tips.
   - If no tip was found, five default tips are used instead.
   - A verdict is then chosen by looking for trigger words in the lower-cased explanation: "Possibly Safe", "Suspicious" or "Likely Scam", each with its badge class and sentence.
2. **The chat endpoint's fallback** (`server.js`).
   - When no AI reply is available, `getEnhancedMockResponse` lower-cases the question and runs an ordered chain of substring tests.
   - It returns the canned answer of the first topic whose test passes. The general answer, used when no test passes, quotes the question.
   - `/api/chat` rejects a blank question with status 400.

Files:

- `wrappers.dfy`: `Option`.
- `text.dfy` (module `Text`): the JavaScript string built-ins the code relies on.
  - `trim()`, and `\s` in regular expressions, use the ECMAScript white-space and line-terminator set.
  - `toLowerCase()`, `startsWith`, `includes` and `split`.
- `scam_check.dfy` (module `ScamCheck`): the reply parser and the verdict.
  - The parser is specified as a fold `Run` of a one-line `Step` over the lines.
  - The loop itself, `ParseReply`, with its two flags and in-place updates, is proved equal to that fold.
  - Lemmas about the fold state what the parser guarantees. The module also holds the verdict and the handler.
- `server.dfy` (module `Server`): topic selection, the canned answers and the `/api/chat` handler.

Observations the proofs make precise:

- `SelectTopic` tests "emi" as a plain substring before it tests "credit card". So "premium credit card" and "credit card loan" get the EMI answer.
- Any query that mentions "save" can never reach the emergency-fund answer.
- The test for "investment" never decides anything, because "invest" is tested in the same condition and every query holding the first also holds the second.

The fifth default tip has no closing period (`api/scam-check.js:94`).

## Model

| member | source | states |
|---|---|---|
| Text.IsSpace | api/scam-check.js:64 | defines the white space `trim()` and `\s` remove: tab, vertical tab, form feed, space, no-break space, the byte-order mark, the Unicode space separators (U+1680, U+2000 to U+200A, U+202F, U+205F, U+3000), and the line terminators LF, CR, U+2028, U+2029 |
| Text.IsBlankMessage | api/scam-check.js:13 | defines the guard of line 13: the message is falsy (modelled as absent), or `trim()` leaves nothing of it; server.js:58 uses the same guard |
| Text.Trim | api/scam-check.js:64 | `trim()` gives an empty string exactly when the input is all white space; otherwise the result neither starts nor ends with white space |
| Text.TrimIsSlice | api/scam-check.js:85 | what `trim()` keeps is one contiguous slice of the input, with nothing but white space before and after it |
| Text.TrimStart | api/scam-check.js:69 | a leading `\s*` removes a prefix of white space only, and what is left does not start with white space |
| Text.ToLower | api/scam-check.js:103 | lower-casing keeps the length and maps each character on its own (ASCII capitals to small letters, every other character unchanged) |
| Text.ToLowerConcat | api/scam-check.js:103 | lower-casing a concatenation is concatenating the lower-cased parts |
| Text.SameIgnoringCaseLowersEqual | server.js:129 | two texts that differ only in the case of ASCII letters lower-case to the same text |
| Text.Contains | api/scam-check.js:104-112 | `includes(w)` is true exactly when `w` occurs at some position of the text |
| Text.OccursInLonger | api/scam-check.js:104-112 | a word that occurs in a text still occurs once text is added before and after it |
| Text.Split | api/scam-check.js:57 | `split('\n')` gives at least one piece, no piece holds a newline, and joining the pieces with newlines gives back the input |
| Text.SplitJoin | api/scam-check.js:57 | splitting the newline-joined pieces (none holding a newline) gives back exactly those pieces, so splitting is the inverse of joining |
| ScamCheck.SkipLabelGap | api/scam-check.js:69 | removing `\s*:?\s*` leaves a suffix of the input that does not start with white space |
| ScamCheck.SkipLabelGapRemovesGap | api/scam-check.js:69 | what is removed matches `\s*:?\s*`: white space, at most one colon, white space |
| ScamCheck.SkipLabelGapIsGreedy | api/scam-check.js:69 | the match is as long as possible: a colon is left at the front only when a colon was already removed |
| ScamCheck.StripExplanationLabel | api/scam-check.js:66-69 | on an explanation header the first 11 characters read "explanation" in any case, and the result is what follows them after the label gap |
| ScamCheck.IsExplanationHeader | api/scam-check.js:66 | defines the explanation header: the trimmed line, lower-cased, starts with "explanation" |
| ScamCheck.IsSafetyTipsHeader | api/scam-check.js:70 | defines the tips header: the trimmed line, lower-cased, starts with "safety tips" |
| ScamCheck.DigitRun | api/scam-check.js:78 | the length of the leading run of digits: all characters before it are digits and the next one is not |
| ScamCheck.NumberedAtDigitRun | api/scam-check.js:78 | in a line matching `/^\d+\./`, the dot is exactly at the end of the leading digits |
| ScamCheck.TipOf | api/scam-check.js:76-80 | an empty line yields no tip, and a tip is always shorter than its line |
| ScamCheck.TipOfPatterns | api/scam-check.js:76-80 | the bullet test (`-`, `•`, `*`) comes first and keeps the trimmed text after the marker; otherwise a tip exists exactly when the line matches `/^\d+\./`, and it is the trimmed text after the dot |
| ScamCheck.Step | api/scam-check.js:64-81 | defines one iteration of the loop on the state (section, explanation, tips): an explanation header restarts the explanation with its text after the label and keeps the tips; a tips header switches section; a non-blank line is appended after a space in the explanation section, or gives its tip in the tips section; anything else changes nothing. What is proved about it: BlankLineIsIgnored, SafetyTipsHeaderAddsNothing, StepInExplanation, StepInSafetyTips |
| ScamCheck.Run | api/scam-check.js:63-82 | defines the loop as a fold: `Step` applied to the lines in order, from a given state |
| ScamCheck.Analyze | api/scam-check.js:57-96 | defines the parser's result on a reply: `Run` from the empty state over `split('\n')`, then `Finish`; ParseReply is proved to compute it |
| ScamCheck.Finish | api/scam-check.js:84-96 | the final tips are never empty: they are the tips read when there are any, otherwise exactly the five defaults of `DefaultTips` (lines 89-95, in order); the explanation is the slice `trim()` keeps, and is empty exactly when the gathered text was all white space |
| ScamCheck.ParseReply | api/scam-check.js:57-96 | the loop with its two flags (never both set) gives exactly the explanation and tips of the fold over `split('\n')`, finished by the trim and the default-tips fallback |
| ScamCheck.RunAppend | api/scam-check.js:63-82 | reading two runs of lines one after the other is reading their concatenation |
| ScamCheck.BlankLineIsIgnored | api/scam-check.js:64-75 | a white-space-only line changes neither the section, nor the explanation, nor the tips |
| ScamCheck.BlankLinesDoNotMatter | api/scam-check.js:63-82 | inserting or removing a blank line anywhere in a reply does not change what is read |
| ScamCheck.SafetyTipsHeaderAddsNothing | api/scam-check.js:70-72 | a "safety tips" header only switches to the tips section; it adds no explanation text and no tip |
| ScamCheck.TipsOnlyGrow | api/scam-check.js:75-80 | tips are only appended: earlier tips stay, in order, and each line adds at most one |
| ScamCheck.ParagraphAppend | api/scam-check.js:73-74 | the paragraph of some lines plus one more is the old paragraph plus the new line's trimmed text after one space (nothing for a blank line) |
| ScamCheck.TipsInAppend | api/scam-check.js:75-80 | the tips of some lines plus one more are the old tips plus that line's tip, if it has one |
| ScamCheck.StepInExplanation | api/scam-check.js:73-74 | in the explanation section a line that is not a header appends its piece of the paragraph and changes nothing else |
| ScamCheck.StepInSafetyTips | api/scam-check.js:75-80 | in the tips section a line that is not a header appends its tip, if any, and changes nothing else |
| ScamCheck.ExplanationSection | api/scam-check.js:63-74 | in the explanation section, lines without headers append exactly their paragraph and touch nothing else |
| ScamCheck.SafetyTipsSection | api/scam-check.js:63-81 | in the tips section, lines without headers append exactly their tips, in order, and touch nothing else |
| ScamCheck.LastExplanationWins | api/scam-check.js:66-74 | after the last explanation header, the explanation is that header's text after its label plus the paragraph of the lines that follow; whatever was gathered before is discarded, and the tips so far are kept |
| ScamCheck.TipsFollowHeader | api/scam-check.js:70-80 | after a "safety tips" header, the lines up to the next header add exactly their tips, in order, after the tips already read; the explanation is kept |
| ScamCheck.NoExplanationHeader | api/scam-check.js:63-82 | without an explanation header the explanation stays empty and the explanation section is never entered |
| ScamCheck.NoSafetyTipsHeader | api/scam-check.js:63-82 | without a "safety tips" header no tip is ever read |
| ScamCheck.DefaultTipsWithoutHeader | api/scam-check.js:88-96 | a reply without a "safety tips" header gets exactly the five default tips, in order |
| ScamCheck.Verdict.Label | api/scam-check.js:99-117 | defines the `verdict` string of each verdict: "Possibly Safe", "Likely Scam", "Suspicious" |
| ScamCheck.Verdict.BadgeClass | api/scam-check.js:100-118 | defines the `badgeClass` of each verdict: "safe", "danger", "warning" |
| ScamCheck.Verdict.VerdictText | api/scam-check.js:101-119 | defines the `verdictText` sentence of each verdict, warning sign included |
| ScamCheck.Classify | api/scam-check.js:99-121 | with the words of `Triggers` (lines 104-108) and `Strengtheners` (lines 110-112): Possibly Safe exactly when the lower-cased explanation holds none of scam, fraud, suspicious, dangerous, malicious; Likely Scam exactly when it holds one of them and one of likely, probably, "high risk"; Suspicious exactly when it holds one of the first and none of the second |
| ScamCheck.VerdictNeverDropsWithMoreText | api/scam-check.js:103-112 | adding text before or after an explanation never lowers its verdict |
| ScamCheck.SafeWithoutExplanationHeader | api/scam-check.js:99-108 | a reply without an explanation header gives an empty explanation and the verdict Possibly Safe |
| ScamCheck.HandleScamCheck | api/scam-check.js:5-129 | a method other than POST gets 405 "Method not allowed"; a missing or blank message gets 400 "Message is required"; otherwise 200 with the parsed explanation and tips and the verdict, badge class and sentence of that explanation |
| Server.Matches | server.js:131-155 | defines each topic's keyword test on the lower-cased query: debit and card; emi or loan; "credit card"; scam or fraud; save or budget; investment or invest; "emergency fund"; the general answer accepts everything |
| Server.SelectTopic | server.js:128-161 | the topic chosen passes its own keyword test on the lower-cased query, and no topic tested before it does |
| Server.SelectTopicIsFirstMatch | server.js:131-160 | the first-match rule determines the topic: a topic that matches, with no earlier topic matching, is the one chosen |
| Server.FirstMatchWithoutCapitals | server.js:129-157 | for a query without ASCII capitals the first-match rule applies to the query as written |
| Server.GeneralOnlyWithoutKeyword | server.js:159-160 | the general answer is chosen exactly when no keyword test accepts the query |
| Server.TopicIgnoresCase | server.js:129 | queries that differ only in the case of ASCII letters get the same topic |
| Server.DebitCardWins | server.js:131-133 | a query holding both "debit" and "card" gets the debit-card answer, whatever else it mentions |
| Server.EmiShadowsCreditCard | server.js:135-141 | a credit-card query that holds "emi" or "loan" anywhere, and not "debit", gets the EMI answer |
| Server.SaveShadowsEmergencyFund | server.js:147-157 | a query holding "save" never gets the emergency-fund answer |
| Server.InvestmentKeywordIsRedundant | server.js:151 | every text holding "investment" also holds "invest" |
| Server.PremiumCreditCardGetsEmiAnswer | server.js:135-136 | "premium credit card" gets the EMI answer, because "premium" holds "emi" |
| Server.CreditCardLoanGetsEmiAnswer | server.js:135-136 | "credit card loan" gets the EMI answer |
| Server.CreditCardQuestionGetsCreditCardAnswer | server.js:139-140 | "how do i apply for a credit card?" gets the credit-card answer |
| Server.CapitalisedQuestionGetsSameAnswer | server.js:129-140 | "How do I apply for a credit card?" gets the credit-card answer too |
| Server.TopicReply | server.js:132-160 | defines each topic's answer: the seven canned texts (`DebitCardReply` … `EmergencyFundReply`, copied from lines 132-156) and, for the general topic, `DefaultOpening`, the query as given, then `DefaultClosing` (line 160) |
| Server.MockResponse | server.js:128-161 | the knowledge-base answer is never empty; when no keyword matches, it is the general answer, with the original query quoted verbatim right after the opening |
| Server.KeywordAnswersIgnoreQueryText | server.js:131-157 | two queries with the same keyword topic get the same answer, whatever their wording |
| Server.UnknownQueryIsEchoed | server.js:159-160 | "xyz123" matches no keyword, and its answer contains it |
| Server.Chat | server.js:54-115 | a missing or blank message gets 400, "Please enter a question." and mode error; otherwise 200, with the AI reply in mode ai when there is one, else the non-empty knowledge-base answer in mode enhanced_mock |

## Left out

- Express set-up, CORS, `dotenv`, `app.listen` and the `/api/health` handler are framework and I/O plumbing.
- The Gemini and OpenAI calls are network collaborators. Their answers are parameters:
  - `modelReply` for the scam check;
  - `aiReply` for the chat, where `None` stands for "no client configured" and for "the call threw".
- The prompt texts are fixed text sent to those services and have no behaviour of their own.
- The scam check's 500 response "Failed to analyze message" (`api/scam-check.js:131-137`) is left out. A failing model call leads there, and so does a missing request body: `const { message } = req.body` (`api/scam-check.js:11`) throws when `req.body` is `null` or `undefined`.
- The chat's catch block (`server.js:117-124`) is left out. It answers 500 with mode `fallback` only when the error arises while `req.body?.message` is falsy or a string, for example a missing request body at `server.js:56`; the reply is `getEnhancedMockResponse(req.body?.message || 'Error occurred')`: the general answer quoting `Error occurred` when the message is falsy, otherwise the message's own topic answer. On a truthy message that is not a string it throws again (below).
- The extra response fields `model`, `tokens` and `note` are left out.
- A message that is not a string is modelled only when it is falsy. Falsy values (absent, `null`, `0`, `false`, `""`) never reach `trim()`: `!message` sends them to the 400 branch, and the model's `None` stands for all of them.
- A truthy message that is not a string is left out; the model's message is a string.
  - In the scam check, `trim()` throws on it inside the `try`, and the catch answers 500 "Failed to analyze message".
  - In `/api/chat`, `trim()` throws, and the catch calls `getEnhancedMockResponse` on the same value (`server.js:120`). There `toLowerCase()` throws again (`server.js:129`), inside the catch, so the handler sends no response of its own.
- `firstHack-main/minimalserver.js` is not part of this model. It only echoes messages over a raw HTTP server.
- Console logging is left out.
- Text.ToLower: lower-cases ASCII letters only. JavaScript also maps non-ASCII capitals: the Kelvin sign, U+0130 and the rest of Unicode. Every keyword involved is ASCII.
- Strings are sequences of Unicode scalar values, not UTF-16 code units. This makes no difference to any tested prefix or marker: `•` is one code unit in both.
- `IsSpace` fixes the white-space set to the characters ECMAScript lists. It does not follow the host's Unicode tables for category Zs.

