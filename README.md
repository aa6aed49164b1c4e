# Autonomous strategic finance: forecast engine and chat helpers in Dafny

This project models the deterministic core of a small "AI CFO" service that
projects monthly customers and revenue for a SaaS company's two business
units, "large" (enterprise accounts won by a growing sales team) and
"small_medium" (accounts won through a marketing funnel):

- `LogicEngine` (logic_engine.dfy) models `generate_forecast` in
  app/logic_engine.py. It starts from the classifier's answer, already
  stripped and lower-cased. That answer picks the branch by substring test:
  "large" first, then "small_medium", otherwise an error. The "large" branch
  starts with 5 customers and 2 salespeople. It hires one more salesperson at
  months 4, 7, 10, … and each month adds 1.5 customers per salesperson. The
  "small_medium" branch adds 9 customers a month. The method keeps the
  source's loops and counters. Its loop invariants tie the counters to
  closed forms, and the lemmas prove the promised properties of those closed
  forms. Each branch's loop is its own method, called by `GenerateForecast`
  after it picks the branch.
- `Services` (services.dfy) models `generate_forecast` in App/services.py, the
  earlier closed-form version. The unit name is matched case-insensitively
  against "large" and "small_medium". The per-month columns are built from the
  caller's figures, and the small_medium funnel yield is truncated with
  `int()`. It is pure, so the model is functions and lemmas.
- `ChatEngine` (chat_engine.dfy) models the helpers of the chatbot in
  app/chat_engine.py:
  - the keyword intent classifier;
  - the months extractor built on `re.search(r'(\d+)\s*month', …)`, modelled
    as a recursive leftmost scan and proved equal to the declarative meaning
    of the pattern;
  - the quick-reply lookup;
  - the keyword priority of the offline stand-in model;
  - the assembly of a reply around the model call.
- `Text` (text.dfy) holds the shared string operations: ASCII `str.lower()`,
  Python's `t in s`, and `str(n)` / `int(digits)` with their round trip.
  `Wrappers` (wrappers.dfy) holds `Option` and `Result`, which stand for the
  Python exceptions.

Floats are modelled as exact `real`s. Every value the forecast engine produces
is a multiple of 0.5, so the exact model and the float computation agree while
the numbers stay below 2^53. `round(x, 1)` is modelled as rounding to the
nearest tenth with ties to even. `int(x)` is modelled as truncation toward zero.

Behaviour of the code at its edges, as modelled:
- `months <= 0` gives an empty table; nothing rejects it
  (app/logic_engine.py:87 and 103, App/services.py:9).
- `cac = 0` raises Python's ZeroDivisionError (App/services.py:17), modelled
  as `DivisionByZero`.
- app/logic_engine.py chooses between its two branches only by the
  classifier's answer; an answer naming neither unit raises ValueError
  (app/logic_engine.py:113-114).
- The rates and starting values of app/logic_engine.py are module constants;
  `generate_forecast` takes only the request's question and horizon.

## Model

| member | source | states |
|---|---|---|
| LogicEngine.GenerateForecast | app/logic_engine.py:80-114 | The result is the "large" table when the answer contains "large", otherwise the "small_medium" table when it contains "small_medium", otherwise the error. |
| LogicEngine.Forecast | app/logic_engine.py:84-114 | The reference result: a table exactly when the answer contains "large" or "small_medium", whose rows are all "large" rows exactly when it contains "large"; otherwise the ValueError. |
| LogicEngine.LargeForecast | app/logic_engine.py:85-99 | The loop's rows are the closed forms: salespeople 2 + (m-1) div 3, customers 5 + 1.5·(sum of salespeople of months 1..m), revenue customers × 16500. Its invariants tie the counters to those forms. |
| LogicEngine.SmbForecast | app/logic_engine.py:102-111 | The loop's rows are m × 9 customers, shown rounded, and revenue customers × 500. |
| LogicEngine.TablesGrowByOneRow | app/logic_engine.py:94-107 | Each month appends exactly one row, for that month, to the end of the table. |
| LogicEngine.GenerateForecastTwice | app/logic_engine.py:85-86 | Determinism: every call restarts from the fixed constants, so two calls with the same answer and horizon return identical results. |
| LogicEngine.ForecastShape | app/logic_engine.py:87-111 | A table has exactly max(months, 0) rows. Row i is labelled "M" followed by the decimal digits of i+1, and no two labels are equal. |
| LogicEngine.ForecastEmptyHorizon | app/logic_engine.py:103-114 | months ≤ 0 gives an empty table. The answer must still name a unit, or the result is the error. |
| LogicEngine.DispatchLargeFirst | app/logic_engine.py:84-99 | An answer containing "large" always gives a table of "large" rows, whatever else it contains. |
| LogicEngine.DispatchSmallMedium | app/logic_engine.py:101-111 | An answer with "small_medium" and without "large" gives a table of "small_medium" rows. |
| LogicEngine.DispatchUninterpretable | app/logic_engine.py:113-114 | An answer containing neither name is the "could not be interpreted" error and produces no table. |
| LogicEngine.BothUnitsGiveLarge | app/logic_engine.py:84-101 | "large or small_medium" selects the "large" table. |
| LogicEngine.BareAnswers | app/logic_engine.py:84-101 | The bare answers "large" and "small_medium" each select their own branch. |
| LogicEngine.SalespeopleCadence | app/logic_engine.py:86-89 | The closed form 2 + (m-1) div 3 follows the loop's rule. It rises by one exactly when m mod 3 = 1, for m ≥ 2 (months 4, 7, 10, …). |
| LogicEngine.SalespeopleMonotone | app/logic_engine.py:86-89 | Salespeople start at 2 and never decrease. |
| LogicEngine.SalespeopleSumClosedForm | app/logic_engine.py:85-91 | For month m = 3q + r (r < 3), the salespeople of months 1..m sum to 2m + 3q(q-1)/2 + rq. |
| LogicEngine.LargeCustomersHalves | app/logic_engine.py:85-91 | "large" customers after m months equal (10 + 3·sum)/2, a multiple of 0.5. |
| LogicEngine.LargeTotalCustomersExact | app/logic_engine.py:90-97 | The rounded "Total Customers" column equals the exact customer count, and revenue is that count × 16500. |
| LogicEngine.LargeStrictlyIncreasing | app/logic_engine.py:90-92 | "large" customers and revenue strictly increase from month to month. |
| LogicEngine.LargeFirstMonths | app/logic_engine.py:85-97 | Month 1 is ("M1", 2, 8.0, 132000.0). Month 4 is ("M4", 3, 18.5, 305250.0). |
| LogicEngine.NewSmbCustomersIsNine | app/logic_engine.py:23 | (30000 / 1500) × 0.45 is exactly 9. |
| LogicEngine.SmbClosedForm | app/logic_engine.py:102-110 | "small_medium" month m shows 9m customers, unchanged by rounding, and 4500m revenue. |
| LogicEngine.SmbThreeMonths | app/logic_engine.py:102-110 | Month 3 of "small_medium" is ("M3", 27.0, 13500.0). |
| LogicEngine.RoundHalfEven | app/logic_engine.py:97 | The rounded integer is within one half of its argument, an integral argument is its own rounding, and a tie goes to the even neighbour, as Python's round does. |
| LogicEngine.Round1 | app/logic_engine.py:97 | round(x, 1) is a whole number of tenths within 0.05 of x, and a tie goes to the even tenth (0.25 gives 0.2), as Python's round does. |
| LogicEngine.Round1OfHalves | app/logic_engine.py:97 | round(x, 1) leaves every multiple of 0.5 unchanged. |
| Services.GenerateForecast | App/services.py:3-30 | A produced table's Month column is list(range(1, months + 1)). |
| Services.Truncate | App/services.py:17 | int(x) lies between 0 and x and within 1 of x, for either sign of x. |
| Services.PayingCustomersPerMonth | App/services.py:17 | int((marketing_cost / cac) * conversion_rate): the funnel yield truncated toward zero, for either sign of the yield. |
| Services.MonthColumnSpec | App/services.py:9 | The Month column has max(months, 0) entries, and entry i is i+1. |
| Services.CaseInsensitive | App/services.py:4-16 | Two unit names with the same lower-case form give the same result. |
| Services.MixedCaseAccepted | App/services.py:4-16 | "LARGE" is accepted. "Small_Medium" is accepted when cac ≠ 0. |
| Services.InvalidUnitRejected | App/services.py:27-28 | The result is the ValueError exactly when the lower-cased unit is neither "large" nor "small_medium". |
| Services.ColumnsHaveMonthsRows | App/services.py:8-25 | Every column of a produced table has max(months, 0) entries. |
| Services.LargeRevenueLinear | App/services.py:10-13 | "large" revenue in month m is m × revenue_per_customer × sales_per_executive. |
| Services.LargeRevenueConstantStep | App/services.py:10-13 | Consecutive "large" revenues differ by month 1's revenue, so the line has zero intercept. |
| Services.SmallMediumColumnsAt | App/services.py:20-24 | Per month, paying customers are p × m, and revenue is those customers × the per-customer revenue. |
| Services.SmallMediumColumns | App/services.py:16-25 | "small_medium" with cac ≠ 0 gives paying customers p × m, with p = int((marketing_cost / cac) × conversion_rate) computed once. Revenue is paying customers × per-customer revenue. |
| Services.ZeroCac | App/services.py:17 | cac = 0 on "small_medium" is the division error and produces no table. "large" does not read cac. |
| Services.DefaultFunnel | App/services.py:17 | The funnel figures of the forecast engine's constant at app/logic_engine.py:23 (30000, 1500, 0.45), given as request fields, yield 9 paying customers a month. |
| Services.TruncationDropsFraction | App/services.py:17 | A yield of 0.9 is truncated to 0 paying customers. |
| ChatEngine.AnyKeywordIn | app/chat_engine.py:102 | The `any(...)` scan is true iff some keyword of the list occurs in the text. |
| ChatEngine.DetectIntent | app/chat_engine.py:99-104 | The intent is "forecast" iff the lower-cased message contains one of the five keywords, and "general" otherwise. Either way it is a key of the quick replies. |
| ChatEngine.Suggestions | app/chat_engine.py:79 | quick_replies.get(intent, quick_replies["general"]): the entry for a known intent, the "general" entry for any other. |
| ChatEngine.SuggestionsForMessage | app/chat_engine.py:79 | The suggestions are always quick_replies[intent], so the `.get` default is never used. There is one option for "forecast" and two for "general". |
| ChatEngine.IntentIgnoresCase | app/chat_engine.py:101-102 | A message and its lower-cased form have the same intent. |
| ChatEngine.DigitRun | app/chat_engine.py:111 | The longest run of ASCII digits starting at i. |
| ChatEngine.SpaceRun | app/chat_engine.py:111 | The longest run of characters matched by `\s` (ASCII) starting at i. |
| ChatEngine.PatternUnique | app/chat_engine.py:111 | Where the pattern matches, it matches only one way: all the digits, then all the whitespace, then "month". |
| ChatEngine.MatchesAtSound | app/chat_engine.py:111 | A greedy match at i is a match of the pattern. |
| ChatEngine.MatchesAtComplete | app/chat_engine.py:111 | Every match of the pattern at i is found by the greedy test. |
| ChatEngine.FindMatch | app/chat_engine.py:111 | A position the search returns lies inside the text, and the pattern matches there. |
| ChatEngine.FindMatchSkipsNothing | app/chat_engine.py:111 | The pattern matches at no position before the one the search returns. When the search returns none, it matches nowhere. |
| ChatEngine.FindMatchLeftmost | app/chat_engine.py:111 | When i is the first position where the pattern matches, the search returns i and group 1 has the match's k digits. |
| ChatEngine.MatchExtendsLeft | app/chat_engine.py:111 | A match right after a digit is also a match one position earlier. |
| ChatEngine.LeftmostMatchStartsRun | app/chat_engine.py:111-113 | The leftmost match begins at the start of a digit run, so group 1 holds the whole run. |
| ChatEngine.ExtractParameters | app/chat_engine.py:106-115 | query is the message unchanged, and months is never negative. |
| ChatEngine.ExtractDefault | app/chat_engine.py:109-113 | When the lower-cased message has no digits followed by optional whitespace and "month", months is 12. |
| ChatEngine.ExtractLeftmost | app/chat_engine.py:111-113 | Otherwise months is the decimal value of the digits of the leftmost match. |
| ChatEngine.ExtractAtStart | app/chat_engine.py:111-113 | A message that opens with the pattern takes months from its opening digits. |
| ChatEngine.ExtractWrittenMonths | app/chat_engine.py:111-113 | "⟨n⟩ months" and "⟨n⟩months" give back n. |
| ChatEngine.ExtractIgnoresCase | app/chat_engine.py:111 | A message and its lower-cased form give the same months. |
| ChatEngine.MockReply | app/chat_engine.py:32-42 | Only the lower-cased "user_query" entry (empty when absent) decides the answer: the forecast answer iff it mentions "forecast" or "projection", the revenue answer iff it mentions neither but "revenue" or "growth", otherwise the greeting. The returned content is the canned text `MockAnswerContent(a)` of the chosen answer a (app/chat_engine.py:36-40). |
| ChatEngine.MockReplyPriority | app/chat_engine.py:33-40 | For any dictionary whose "user_query" is the query, whatever else it holds: the forecast answer iff the lowered query mentions "forecast" or "projection", the revenue answer iff neither appears and "revenue" or "growth" does, otherwise the greeting. Another entry, such as "knowledge_base", changes nothing. |
| ChatEngine.MockReplyWithoutQuery | app/chat_engine.py:33 | Input without "user_query" gets the greeting. |
| ChatEngine.MockReplyAgreesWithIntent | app/chat_engine.py:33-40 | If the canned answer is not the greeting, the intent is "forecast". A "general" intent always gets the greeting. |
| ChatEngine.GenerateResponse | app/chat_engine.py:45-97 | A reply is assembled iff the knowledge base was read and the model answered. It then carries the model's text, quick_replies[intent], the message and the extracted months. A knowledge-base file that does not exist gives the missing-file message, with the KnowledgeBaseError text naming the path as error. Any other failure, of the read or of the model, gives the "I'm sorry…" message with the exception's text as error. Every failure has no suggestions. |
| Text.Lower | app/chat_engine.py:101 | str.lower() keeps the length of the string; what becomes of each character is stated by Text.LowerSpec. |
| Text.LowerSpec | app/chat_engine.py:101 | Lowering keeps the length, turns each upper-case letter into the same letter of the lower-case alphabet, leaves every other character alone, and so leaves no upper-case letter. |
| Text.LowerIdempotent | app/chat_engine.py:101 | Lowering twice is lowering once. |
| Text.Contains | app/chat_engine.py:102 | `t in s` holds for the empty t and for t == s, and never when t is longer than s. |
| Text.DecimalString | app/logic_engine.py:95 | str(m) is a non-empty string of digits. It has no leading zero, and it is one digit exactly when m < 10. |
| Text.DigitsValue | app/chat_engine.py:113 | int(digits) is below 10^(number of digits), and is 0 exactly when every digit is '0'. |
| Text.DigitsValueLeadingZero | app/chat_engine.py:113 | int() ignores leading zeros: "012" reads as 12, so every digit run has its decimal value. |
| Text.DigitsValueOfDecimal | app/chat_engine.py:113 | int(str(n)) = n. |
| Text.DecimalStringInjective | app/logic_engine.py:95 | Different months get different labels. |

## Left out

- The model calls: the Gemini client, prompt templating, `chain.invoke` and `chain.ainvoke`. The forecast engine takes the classifier's normalised answer as its input, and `ChatEngine.GenerateResponse` takes the model's completion as a parameter.
- `read_knowledge_base` itself (file I/O). The forecast engine starts after the read. `ChatEngine.GenerateResponse` takes the outcome of the read as a parameter: the text, the KnowledgeBaseError for a missing file (app/logic_engine.py:42-43), or any other exception of the read.
- How the stand-in model is wired into the prompt pipeline and `get_llm`'s choice between the real and the stand-in model. Both are library behaviour, not modelled. `ChatEngine.MockReply` is modelled on a dictionary input. What the pipeline at app/chat_engine.py:63-67 does with the stand-in object is library behaviour and is not modelled; any exception raised there reaches generate_response's generic error reply, which `ChatEngine.GenerateResponse` covers as a `completion` that is `Err(...)`.
- API-key debug printing and every `print`.
- DataFrame construction. Tables are a sequence of records (app/logic_engine.py) or one sequence per column (App/services.py).
- App/main.py (routing, CORS, temporary files, spreadsheet export, the HTTP 500 mapping), frontend/script.js and App/models.py are not part of this model. App/services.py reads request fields that App/models.py does not declare, so `Services.ForecastRequest` lists the fields App/services.py reads.
- IEEE-754 behaviour. The model is exact over `real`, and it does not claim bit-exact agreement with floats for arbitrary inputs, such as the product in App/services.py:17 or very long horizons.
- Unicode: `\d`, `\s` and `lower()` are modelled on ASCII only. `\s` covers \t, \n, \v, \f, \r, \x1c-\x1f and space.
- ExtractParameters: does not model CPython's limit on integer string conversion. Since 3.11, `int()` of a digit run longer than 4300 digits raises ValueError, which generate_response turns into its generic error reply. The model reads any length.
- `Services.Truncate` is modelled only for finite values: `int()` of an infinity or NaN raises, and exact reals have neither.
