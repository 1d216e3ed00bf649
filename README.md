# Password strength checker — verified model of the analysis helpers

This project models the password-analysis core of `cyberpasschecker.py`, a
desktop password-strength widget. The core is three pure functions:

- `estimate_charset_size` — the charset estimator. It looks at which of four
  character classes occur in the password (lowercase, uppercase, digit, and
  the 32 symbols of Python's `string.punctuation`) and adds up the fixed
  sub-alphabet sizes 26, 26, 10 and 32.
- `rough_crack_time` — the crack-time text selector. It checks an
  empty-password sentinel, then a no-valid-characters sentinel, then picks a
  qualitative phrase by score. Only the top score consults the brute-force
  estimate.
- `evaluate_password` — the strength evaluator. It counts five checks into a
  score from 0 to 5. It maps emptiness and score to one of five tiers, each
  with a fixed label, colour and verdict. It assembles a seven-line checklist
  joined by newlines, and reports the password length.

Modules (one per component, all pure functions and lemmas):

- `Charset` (`charset.dfy`): character classes, `Has` (Python's `any`), `CharsetSize`.
- `CrackTime` (`crack_time.dfy`): the phrases, the overflow guard and `RoughCrackTime`.
- `Evaluator` (`evaluator.dfy`): checks, score, tiers, checklist and `Evaluate`.
- `TextLines` (`text_lines.dfy`): `Join` (`"\n".join`) and its inverse `Split`
  (`str.split("\n")`). The checklist's structure is stated by splitting the
  joined text back into lines.

The floating-point part of `rough_crack_time` is abstracted. The guard
`len * log10(charset) - log10(2e9) > 300` is written in exact integer
arithmetic as `charset^len > 2 * 10^309` (`EstimateOverflows`). The formatted
finite estimate, `pretty_time(10 ** seconds_log10)`, is a function parameter
`prettyTime(length, charset)`. That parameter depends only on what the source
feeds it: the length and the charset size. Lemmas that need the formatter's
output to be a single line, distinct from the fixed phrases, say so with
`WellFormedPrettyTime`.

## Model

| member | source | states |
|---|---|---|
| `Charset.ClassSize` | cyberpasschecker.py:26-34 | each class adds 26, 26, 10 or 32 (the size of `string.punctuation`) |
| `Charset.Has` | cyberpasschecker.py:21-24 | the `any(...)` scan is true exactly when some character of the password is in the class |
| `Charset.CharsetSize` | cyberpasschecker.py:20-35 | the charset size lies in 0..94 and is 0 for the empty password |
| `Charset.CharsetZeroIff` | cyberpasschecker.py:21-35 | the charset size is 0 exactly when no character is lowercase, uppercase, a digit or punctuation |
| `Charset.CharsetFullIff` | cyberpasschecker.py:26-35 | the charset size is 94 exactly when all four classes occur |
| `Charset.CharsetIsSubsetSum` | cyberpasschecker.py:26-35 | the charset size is one of the 12 distinct sub-sums of 26 + 26 + 10 + 32: 0, 10, 26, 32, 36, 42, 52, 58, 62, 68, 84, 94 |
| `Charset.ClassesDisjoint` | cyberpasschecker.py:21-24 | no character belongs to two classes |
| `Charset.CharsetExampleLower` | cyberpasschecker.py:20-35 | "abc" gives 26 |
| `Charset.CharsetExampleDigits` | cyberpasschecker.py:20-35 | "abc123" gives 36 |
| `Charset.CharsetExamplePunct` | cyberpasschecker.py:20-35 | "abc123!@" gives 68 |
| `CrackTime.LengthBucketText` | cyberpasschecker.py:76-82 | the low-score phrase is the short, medium or long bucket exactly for lengths below 8, 8 to 11, and 12 or more |
| `CrackTime.EmptySentinel` | cyberpasschecker.py:60-61 | the no-password sentinel is returned for the empty password whatever the score, and for no other password |
| `CrackTime.NoValidCharsSentinel` | cyberpasschecker.py:63-65 | the no-valid-characters sentinel is returned exactly for nonempty passwords without a recognised character, whatever the score |
| `CrackTime.LowScoreDependsOnLengthOnly` | cyberpasschecker.py:76-82 | for scores up to 2 the text is one of the three buckets and two passwords get the same text exactly when they share a length bucket |
| `CrackTime.MidScoreFixed` | cyberpasschecker.py:83-86 | scores 3 and 4 give their own fixed phrases, independent of length, charset and formatter |
| `CrackTime.TopScoreUsesEstimate` | cyberpasschecker.py:87-90 | for score 5 and above the text is the astronomical sentinel or the formatted estimate, and depends only on length and charset size |
| `CrackTime.CrackTimeSingleLine` | cyberpasschecker.py:59-90 | every selected text is a single line |
| `CrackTime.NoOverflowBelow155` | cyberpasschecker.py:67-74 | with at most 94 symbols, no password shorter than 155 characters trips the overflow guard |
| `CrackTime.OverflowMonotone` | cyberpasschecker.py:67-74 | once the guard trips for a length, it trips for every longer password over the same charset |
| `TextLines.SplitJoin` | cyberpasschecker.py:145 | newline-joining lines that hold no newline can be split back into exactly those lines |
| `Evaluator.CountTrue` | cyberpasschecker.py:99 | the sum of booleans is at most their number, 0 exactly when none holds, and full exactly when all hold |
| `Evaluator.Score` | cyberpasschecker.py:93-99 | the score is the number of passing checks among length ≥ 8, lowercase, uppercase, digit, punctuation, so at most 5 |
| `Evaluator.EvaluateScore` | cyberpasschecker.py:92-147 | the returned score counts the checks, is 5 exactly when all pass and 0 exactly when none does; the returned length is the password's |
| `Evaluator.LabelDeterminesTier` | cyberpasschecker.py:107-126 | the five labels are distinct |
| `Evaluator.TierLabelIff` | cyberpasschecker.py:107-126 | each label corresponds exactly to its condition: empty, or nonempty with score ≤ 2, 3, 4 or 5 |
| `Evaluator.EvaluateTier` | cyberpasschecker.py:107-126 | exactly one tier applies: label, colour and verdict all come from the tier chosen by emptiness then score |
| `Evaluator.CheckLines` | cyberpasschecker.py:129-133 | there are five check lines, each free of newlines |
| `Evaluator.CheckLineShowsOutcome` | cyberpasschecker.py:129-133 | a check line with a pass mark differs from the same line with a fail mark |
| `Evaluator.CheckLinesShowOutcomes` | cyberpasschecker.py:129-133 | two passwords get the same i-th check line exactly when their i-th check agrees |
| `Evaluator.EvaluateDetails` | cyberpasschecker.py:128-145 | the details text splits into exactly 7 lines: the five check lines, an empty line, and the crack-time prefix followed by the selector's text |
| `Evaluator.ScoreFiveIffFullCharset` | cyberpasschecker.py:94-101 | a score of 5 holds exactly for passwords of length ≥ 8 whose charset size is 94 |
| `Evaluator.UnrecognisedScoresAtMostOne` | cyberpasschecker.py:94-101 | a nonempty password with charset 0 scores only its length check, so at most 1 |
| `Evaluator.EvaluateEmpty` | cyberpasschecker.py:107-110 | the empty password scores 0, is "Idle" in "#808080", has length 0, and its last line carries the no-password sentinel |
| `Evaluator.TierMatchesCrackText` | cyberpasschecker.py:105-126 | the weak tier shows a length bucket or the no-valid-characters sentinel, "Okay‑ish" and "Strong‑ish" their fixed phrases, and "Peak" the estimate for charset 94 |

## Left out

- The `PasswordCheckerGUI` class and `main` (cyberpasschecker.py:151-370) are not part of this model. They are PyQt5 widget construction, styling and signal wiring.
- `pretty_time` (cyberpasschecker.py:37-57) and the conversion `10 ** seconds_log10` are not modelled. They use floating-point arithmetic and float formatting. The formatted finite estimate is the parameter `prettyTime(length, charset)`.
- `EstimateOverflows` states the guard `seconds_log10 > 300` in exact arithmetic. Rounding of `math.log10` near the threshold is not captured.
- The unused `_entropy_bits` value (cyberpasschecker.py:101-103) is not modelled. It never reaches the result.
- Character classes are ASCII ranges plus the 32 punctuation symbols. Python's `str.islower`, `str.isupper` and `str.isdigit` also accept non-ASCII letters and digits (for example `é` or `²`). The model treats those characters as unrecognised.
- The result dictionary is the datatype `Evaluation`. Its `label` key is the field `labelText`, because `label` is a reserved word in Dafny.
- Idempotence needs no lemma: every member is a function, so equal inputs give equal results.
- The model uses the code's exact phrases (for example "likely seconds to a few minutes with common attack tools"). The labels "Okay‑ish" and "Strong‑ish" keep the code's non-breaking hyphen (U+2011).
