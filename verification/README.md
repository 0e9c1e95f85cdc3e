# Judge orchestration and submission validation of an online judge

The application lets users submit source code for programming problems and
hands code to the Judge0 execution service. This project models two pieces
of it in Dafny:

- **`generateOutput`** (`app/test-cases/actions.ts`). It runs a problem's
  reference solution on a test input. It looks up Judge0's language
  identifier in a fixed table and builds the submission body from the stored
  problem fields. It then polls Judge0 for the job's status at most ten
  times. Status 3 ("Accepted") returns the judge's `stdout`. A status above 3
  returns `stderr`. Anything below 3 means "still queued or processing" and
  the loop polls again. After ten pending replies the function returns the
  plain string `"Time limit exceeded"`.
- **`submissionSchema`** (`app/submissions/submissionSchema.ts`). This is the
  validator for submission form data. `problemId` must be a string.
  `contestId` may be absent, and if present it must be a string. `language`
  must be a value of the `Language` enumeration. `code` must be a string of
  50 to 65000 characters, both bounds included.

The judge is modelled as the finite script of replies it gives to successive
polls. A poll past the end of the script is a status request that failed.
In the source that failure rejects the promise, so nothing is returned; the
model calls this outcome `Raised`. The returned text is a plain string, just
as in the source. The timeout sentinel therefore has the same type as the
program's output, and `TimeoutIndistinguishableFromOutput` shows that a
caller cannot tell the two apart.

Modules: `Wrappers` (an `Option` type), `Languages` (the `Language`
enumeration), `JudgeSubmission` (the language table and the submit body),
`JudgePolling` (status classification and the poll loop, both as a
recursive function and as the source's `while` loop), `TestCaseActions`
(`generateOutput` composed from the two), and `SubmissionSchema` (the
validator over a JSON object).

## Model

| member | source | states |
|---|---|---|
| `Languages.FromName` | app/submissions/submissionSchema.ts:7 | a string is accepted as a `Language` exactly when it is the value of some member of the generated enumeration object, and the member found has that value |
| `Languages.Name` | app/submissions/submissionSchema.ts:7 | every enumeration member has a string value, and that value is recognised as that member and no other |
| `JudgeSubmission.LanguageId` | app/test-cases/actions.ts:44-49 | the identifier looked up for any language is in the table (C_CPP↦54, JAVASCRIPT↦63, PYTHON3↦71), and reading the table backwards from it gives back that language and no other |
| `JudgeSubmission.LanguageOfId` | app/test-cases/actions.ts:44-48 | reading the language table backwards: an identifier maps to the member whose Judge0 code it is, and to none when no member has it |
| `JudgeSubmission.LanguageIdInjective` | app/test-cases/actions.ts:44-49 | the table C_CPP↦54, JAVASCRIPT↦63, PYTHON3↦71 is total and injective, and its inverse recovers the member |
| `JudgeSubmission.BuildSubmitBody` | app/test-cases/actions.ts:49-69 | the body's `language_id` decodes to the problem's language; `source_code`, `stdin`, `cpu_time_limit` and `memory_limit` are the problem's code, the caller's input and the problem's limits, unchanged |
| `JudgeSubmission.SubmitBodyRoundTrip` | app/test-cases/actions.ts:49-69 | the submitted body loses nothing: the problem can be read back from it |
| `JudgePolling.Classify` | app/test-cases/actions.ts:84-89 | status 3 exactly is success, a status above 3 is failure, a status below 3 keeps polling |
| `JudgePolling.Interpret` | app/test-cases/actions.ts:85-88 | a terminal reply yields its stdout when its status is 3 and its stderr when above 3 |
| `JudgePolling.PollFrom` | app/test-cases/actions.ts:75-94 | from attempt counter t the loop issues between t and 10 polls, every reply before the last is pending, and the last decides: past the script it fails, terminal it returns that reply's text, pending it was the 10th poll and the sentinel is returned |
| `JudgePolling.Poll` | app/test-cases/actions.ts:74-94 | the loop entered with counter 0 issues 1 to 10 polls and ends at the first terminal reply, after 10 pending replies with the sentinel, or with a failed request |
| `JudgePolling.FirstTerminalDecides` | app/test-cases/actions.ts:76-89 | from a fresh counter: first terminal reply at ordinal k+1 ≤ 10 means exactly k+1 polls, returning its stdout for status 3 and its stderr above 3 |
| `JudgePolling.TimesOutAfterBudget` | app/test-cases/actions.ts:75-94 | ten pending replies give exactly ten polls and the timeout sentinel, and no 11th poll |
| `JudgePolling.FailedRequestPropagates` | app/test-cases/actions.ts:77-83 | a failed status request with fewer than ten pending replies before it ends the call without a result |
| `JudgePolling.PendingRepliesInterchangeable` | app/test-cases/actions.ts:84-91 | replacing one pending reply by another pending reply changes neither the result nor the poll count |
| `JudgePolling.RepliesBeyondBudgetIgnored` | app/test-cases/actions.ts:75-76 | two judges that answer the first ten polls alike produce the same run, so nothing beyond the 10th poll is consulted |
| `JudgePolling.TimeoutIndistinguishableFromOutput` | app/test-cases/actions.ts:85-94 | a timed-out run and a run whose accepted stdout is "Time limit exceeded" return the same string |
| `JudgePolling.PollLoop` | app/test-cases/actions.ts:74-94 | the `while` loop with its counter, starting at 0, rising by one per pending reply and staying within 0..10, computes the same result and poll count as `Poll` |
| `TestCaseActions.GenerateOutput` | app/test-cases/actions.ts:49-94 | the submitted body carries the problem and the caller's input losslessly; polling issues 1 to 10 requests with every reply before the last pending; the returned text is the last reply's stdout (status 3) or stderr (above 3), or "Time limit exceeded" after 10 pending replies, and a request past the judge's answers makes the call fail |
| `SubmissionSchema.SafeParse` | app/submissions/submissionSchema.ts:4-9 | accepted exactly when `problemId` is a string, `contestId` is absent or a string, `language` is an enumeration value and `code` is a string with length in [50, 65000]; on acceptance the result's fields equal the input's declared fields, with undeclared keys dropped |
| `SubmissionSchema.ShapeRoundTrip` | app/submissions/submissionSchema.ts:4-9 | a submission sent as an object, with any undeclared keys added, parses back to itself exactly when its code length is within the bounds, and is rejected otherwise |
| `SubmissionSchema.CodeLengthBoundaries` | app/submissions/submissionSchema.ts:8 | code of length 49 or 65001 is rejected; code of length 50 or 65000 is accepted when the other fields are valid |
| `SubmissionSchema.ProblemIdRequired` | app/submissions/submissionSchema.ts:5 | an object without `problemId` is rejected |
| `SubmissionSchema.LanguageMustBeEnumMember` | app/submissions/submissionSchema.ts:7 | a `language` that is not a string value of the enumeration is rejected |
| `SubmissionSchema.ContestIdOptional` | app/submissions/submissionSchema.ts:6 | leaving `contestId` out is accepted exactly as a string would be; `null` or any non-string value is rejected |

## Left out

- `createNewTestCase` and `deleteTestCase` (app/test-cases/actions.ts:10-33, 97-104) are database writes with a session lookup. They are not modelled.
- The problem lookup and the `notFound()` call (app/test-cases/actions.ts:36-43) are a database read. The model starts from the found problem.
- The HTTP requests themselves, their headers, the `JUDGE0_URL` and `JUDGE0_AUTH_KEY` environment values, the submission token and the poll URL built from it are network I/O. The judge is the scripted sequence of replies.
- The submit request failing, or its response lacking a token or not being JSON, is not modelled. The source does not handle these cases.
- The 1000 ms wait between polls and the `console.log` of the counter are timing and logging. Each wait is a step with no effect.
- A poll reply that is not JSON rejects the promise exactly as a failed request does. Both are the `Raised` outcome.
- A missing `status_id` compares false with 3 in both tests, so the source keeps polling. The model's status is always an integer.
- Judge0 sends `null` for an empty `stdout` or `stderr`, and the source returns that `null` as it is. The model's reply fields are always strings.
- `SafeParse` takes the input as a JSON object. Input that is not an object at all, and zod's list of error messages, are not modelled; rejection is `None`.
- SubmissionSchema.SafeParse: a string's length is its number of characters, and a Dafny character is a Unicode scalar value, while zod counts UTF-16 code units. A surrogate pair cannot be written as two Dafny characters, so a character outside the Basic Multilingual Plane would count 1 here and 2 in the source. Strings containing such characters are outside the model.
- `problem.correctCode` is taken as a non-null string. If the database column is nullable, the source would send `source_code: null`, which the model cannot express.
- `problem.timeLimit` is a `real` and `problem.memoryLimit` an `int`. The database schema that fixes their types is not part of this model.
- The other `generateOutput`, in app/problems/[id]/test-cases/actions.ts, is not part of this model. It is the variant with base64 transport, 20 polls and an `{ok, message}` result.
- The source has no base64 transport and no cancellation on this path, so neither is modelled.
- `LANGUAGE_MAP` exported from components/index.ts lives in a file that is not part of this model. The table modelled is the one inside `generateOutput`.
