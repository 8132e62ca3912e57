# WorkZen HR rules in Dafny

WorkZen is a human-resources application. It has two Django REST back ends:

- `Backend/` is the richer one. It covers users and login, accounts, attendance, leaves, payroll, analytics, workflows and sync.
- `workzen_backend/` is a smaller rewrite of accounts, attendance, leaves and payroll.

It also has two React front ends, `src/` and `Prod/src/`.

This project models the exact, sequential rules of the application and proves properties of them:

- **Payroll.** Three calculators:
  - `calculate_payroll` in `Backend/payroll/views.py`;
  - the body of the Celery job `generate_payslips_for_payrun` in `Backend/payroll/tasks.py`;
  - `Payrun.calculate_payroll` in `workzen_backend/payroll/models.py`.

  Around them:
  - the generate-and-skip-existing loop with its totals;
  - the set-once payslip id and SHA-256 signature of `Payslip.save`;
  - verification by recomputing the signature;
  - the download permission.
- **Leaves.**
  - Inclusive day counting.
  - Serializer validation.
  - The per-type balance guard of `apply_leave`.
  - The `pending → approved | rejected` transitions and the used-day counters they move.
  - The workzen `Leave` model.
- **Accounts and users.**
  - The login lockout machine: five failures lock for 30 minutes, and a success resets the counter.
  - Role visibility and `can_access`.
  - Password character-class and registration validation in both back ends.
  - The five permission classes.
- **Attendance.**
  - One row per user and day.
  - Check-in and check-out, hours to status with the overnight case, overtime to compensatory-off days, and the attendance percentage.
  - The same rules in the workzen rewrite.
- **Workflows.** The approval step machine.
- **Heuristics.**
  - The keyword and polarity sentiment classifiers.
  - The attrition heuristics and risk levels.
  - The employee-of-the-month score and its argmax loop.
- **Sync.** The key-order-independent document fingerprint and its integrity check.
- **Front-end state.** Each React component becomes a class whose fields are its state, and each handler becomes a method whose `ensures` gives the whole new state. The components are:
  - the attendance calendars;
  - the profile pages (password reset, skills and certifications, edit dialogs, initials);
  - the payroll page's "payrun done exactly when all its payslips are" rule;
  - the time-off lists;
  - the employee pages;
  - the attendance list;
  - photo attendance;
  - the editable payslip;
  - the payroll wizard;
  - leave-request management;
  - reports;
  - sign-up;
  - the route guard;
  - user settings.

Modelling choices:

- `Decimal` amounts are exact `real`s. Python's `round(x, 2)` is round-half-even to cents (`Common.RoundHalfEven2`).
- Dates are proleptic Gregorian `(year, month, day)` with Python's ordinal numbering (`Dates`).
- `Dates` and `Common` are shared helpers: date arithmetic, and text, number, rounding and sequence functions that several apps use.
- Database tables are `map`s or `seq`s held in class fields. `get_or_create` and `update_or_create` are map updates.
- Inputs rather than computations:
  - SHA-256 (FIPS 180-4) is a function parameter (`Hashing.Sha256Fn`). Its only known property is that it yields 64 lower-case hexadecimal characters (`Hashing.DigestShaped`); the members that rely on that property require it.
  - The clock, `uuid4().hex`, `Date.now()` ids, `Math.random()` ids, TextBlob polarity and subjectivity, Django's `check_password`, the server's answers and the distance to the office are all parameters.

Payroll states as the code sets them:

- `generate_payroll` creates each payslip as `finalized` at once.
- `Payslip.save` signs on the first save.
- The Celery job sets the payrun to `processing` and never finalises it.

## Model

| member | source | states |
|---|---|---|
| Users.CanAccess | Backend/users/models.py:73-81 | grants an action exactly when it is in the role's list; a role outside the four known ones is granted nothing |
| Users.CanAccessIgnoresResource | Backend/users/models.py:73-81 | the resource argument never changes the answer |
| Users.OnlyAdminHoldsAll | Backend/users/models.py:75-81 | view_all, create_all, update_all and delete_all are granted to admin and to no other role |
| Users.ApproveLeavesHolders | Backend/users/models.py:78-81 | approve_leaves is granted to the HR and payroll officers only, not to admin |
| Users.WithId | Backend/users/views.py:29 | the users with the requester's id and no others |
| Users.VisibleUsers | Backend/users/views.py:21-29 | admin lists everyone, the two officers list the employees, anyone else lists only themselves |
| Users.VisibilityBounds | Backend/users/views.py:21-29 | an admin sees every user anyone else sees; a non-admin sees only employees and themselves |
| Users.Attempt | Backend/users/views.py:81-109 | a login attempt never changes the account's id or password hash |
| Users.LockedChangesNothing | Backend/users/views.py:81-85 | while the lock lies in the future, every attempt answers 403 and leaves the account unchanged |
| Users.WrongPasswordCounts | Backend/users/views.py:88-104 | on an unlocked account a wrong password adds exactly one failure and answers 401; it locks for 30 minutes exactly when the count reaches 5 |
| Users.RightPasswordResets | Backend/users/views.py:106-109 | the right password on an unlocked account logs in and clears the counter and the lock |
| Users.RelockAfterExpiry | Backend/users/views.py:81-92 | the counter outlives an expired lock, so the first wrong password afterwards locks again for 30 minutes |
| Users.FiveWrongPasswordsLock | Backend/users/views.py:88-92 | from a clean account, n ≤ 5 wrong passwords leave a counter of n; there is no lock before the fifth, and the fifth locks for 30 minutes from its own time |
| Users.InsertAudit | Backend/users/models.py:84-92 | an audit row is inserted at the end of the log, except that a row without a user is refused when the user column is not nullable |
| Users.UserlessAuditRefused | Backend/users/views.py:66-78 | with the schema as declared, the failure audit for an unknown e-mail cannot be inserted |
| Users.UserlessAuditRecorded | Backend/users/views.py:66-78 | with a nullable user column, the same audit is appended to the log |
| Users.LoginService.Login | Backend/users/views.py:53-133 | a missing or blank field gives 400 and no change. An unknown e-mail changes no account; with the declared schema the audit insert fails and the answer is 500 with nothing written, and with a nullable user column a failure audit with no user is written and the answer is 401. Otherwise the attempt is applied to that account and saved; it is audited unless the account is locked |
| Accounts.StrengthCheck | Backend/accounts/serializers.py:42-50 | it reports no error exactly when all four rules hold; otherwise it reports the first rule that fails, in the order upper case, lower case, digit, special character. A digit is any character of the regular-expression class `\d`, which is given as a parameter |
| Accounts.OtherScriptDigitCounts | Backend/accounts/serializers.py:47 | when `\d` matches ARABIC-INDIC DIGIT ONE, a password whose only digit is that character passes, and without it the same password lacks a digit |
| Accounts.StrengthSurvivesExtension | Backend/accounts/serializers.py:42-50 | adding characters before or after a strong password keeps it strong |
| Accounts.ValidateRegistration | Backend/accounts/serializers.py:37-52 | accepts exactly when the fields are valid, the stripped passwords match and the password is strong; a mismatch is reported before strength, and a weakness names the rule StrengthCheck reports |
| Accounts.MismatchBeforeStrength | Backend/accounts/serializers.py:38-39 | a mismatch is reported however weak the password is |
| Accounts.ValidateNewPassword | Backend/accounts/serializers.py:65-75 | accepts exactly the strong passwords |
| Accounts.ChangeUsesRegistrationRules | Backend/accounts/serializers.py:42-50 | change-password accepts exactly what registration accepts, and refuses for the same rule |
| Accounts.CreationFields | Backend/accounts/serializers.py:54-57 | the user is created from the validated fields without password2 and with every other field unchanged |
| Accounts.CreationKeepsPassword | Backend/accounts/serializers.py:54-57 | the password reaches user creation unchanged |
| Permissions.AnonymousDenied | Backend/accounts/permissions.py:7-32 | an anonymous request fails all four role checks |
| Permissions.AdminAllEmployeeNone | Backend/accounts/permissions.py:7-32 | an admin passes all four role checks and an employee passes none |
| Permissions.RoleChecksNest | Backend/accounts/permissions.py:14-32 | the three-role check accepts exactly those either two-role check accepts, and both two-role checks accept every admin |
| Permissions.OwnerOrAdmin | Backend/accounts/permissions.py:35-41 | an admin is allowed; anyone else is allowed only on a row they own. A signed-in user on a row that has an employee never causes the attribute error |
| Permissions.OwnerAllowedIff | Backend/accounts/permissions.py:38-41 | a signed-in non-admin is allowed on a row exactly when the row's employee is them |
| HrRecords.GrossSalary | Backend/users/models.py:66-71 | gross is basic times (1 + HRA% / 100 + DA% / 100), so it is proportional to basic |
| HrRecords.DefaultGrossSalary | Backend/users/models.py:29-31 | with the default 40% HRA and 50% DA, gross is 1.9 × basic |
| HrRecords.GrossSalaryMonotone | Backend/users/models.py:66-71 | with non-negative percentages, raising basic raises gross by at least the same amount |
| HrRecords.CountInMonth | Backend/payroll/views.py:170-176 | the count of an employee's rows in a month with a given status never exceeds the table's size |
| HrRecords.CountInMonthAppend | Backend/payroll/views.py:170-176 | the count over two tables read one after the other is the sum of their counts |
| HrRecords.CountInMonthSingle | Backend/payroll/views.py:170-176 | a single row counts 1 exactly when it is the employee's, dated in the month and of the status, and 0 otherwise |
| HrRecords.WithRoleEmployee | Backend/payroll/views.py:87 | exactly the users whose role is employee, in table order |
| HrRecords.ActiveEmployees | Backend/payroll/tasks.py:15 | exactly the active users whose role is employee, in table order |
| Analytics.RiskLevelOfScore | Backend/analytics/serializers.py:24-29 | high exactly above 0.7, medium exactly in (0.4, 0.7], low exactly at or below 0.4 |
| Analytics.RiskLevelMonotone | Backend/analytics/serializers.py:24-29 | a higher score never shows a lower level |
| Analytics.AverageWithin | Backend/analytics/views.py:109 | the average of values in a range containing 0 (the value with no rows) stays in the range |
| Analytics.ScoresOf | Backend/analytics/views.py:169-170 | every score taken comes from one of the employee's sentiment rows, the score of every one of the employee's rows is taken, and no more scores than rows are taken |
| Analytics.ScoresOfAppend | Backend/analytics/views.py:169-170 | the scores of two tables read one after the other are the scores of each, in order |
| Analytics.ScoresOfSingle | Backend/analytics/views.py:169-170 | a single row gives its score exactly when it is the employee's |
| Analytics.ScoresInMonth | Backend/analytics/views.py:104-109 | every score taken comes from one of the employee's rows, the score of every one of the employee's rows dated in the month is taken, and no more scores than rows are taken |
| Analytics.ScoresInMonthAppend | Backend/analytics/views.py:104-109 | the month's scores of two tables read one after the other are those of each, in order |
| Analytics.ScoresInMonthSingle | Backend/analytics/views.py:104-109 | a single row gives its score exactly when it is the employee's and dated in the month |
| Analytics.RiskFor | Backend/analytics/views.py:168-186 | the risk is 0.8 when the average sentiment is below −0.2 and 0.5 otherwise; the advice is to monitor exactly in the first case; the tenure is 12 months |
| Analytics.HeuristicLevels | Backend/analytics/views.py:172-186 | the heuristic never yields a low level: negative employees are high and everyone else medium |
| Analytics.RiskRowsStep | Backend/analytics/views.py:164-189 | taking one more employee into the loop adds exactly that employee's row |
| Analytics.StatusCountWithinRecords | Backend/analytics/views.py:94-100 | the present days never exceed the recorded days |
| Analytics.AttendancePct | Backend/analytics/views.py:101 | the percentage lies in [0, 100]; it is 0 with no records and 100 when every recorded day is present |
| Analytics.AwardScoreBounds | Backend/analytics/views.py:120-124 | with sentiment in [−1, 1] and at most twelve leaves, the score lies in [0, 98.8] |
| Analytics.AwardScoreRates | Backend/analytics/views.py:120-124 | each further leave costs 2.4 points and each attendance point is worth 0.4 |
| Analytics.EmployeeScoreBounds | Backend/analytics/views.py:92-126 | an employee's score for the month lies in [0, 98.8] when sentiment scores lie in [−1, 1] and there are at most twelve approved leaves |
| Analytics.Tenths | Backend/analytics/views.py:138 | one-decimal rounding is within half a tenth of the value |
| Analytics.Fixed1Text | Backend/analytics/views.py:138 | the text ends in a point and one digit, and starts with a minus exactly for a negative value |
| Analytics.MonthAward | Backend/analytics/views.py:133-139 | the new award is a month award for the winner, month and year, with a reason that starts "Top performer with score " and goes on past it |
| Analytics.LatestAward | Backend/analytics/views.py:75-79 | nothing exactly when no month award matches; otherwise one of the matching month awards |
| Analytics.FirstBestUnique | Backend/analytics/views.py:128-129 | at most one employee is the first with the highest score |
| Analytics.FirstBestIndex | Backend/analytics/views.py:128-129 | the chosen employee has the highest score, and no earlier employee ties with it |
| Analytics.AnalyticsStore.CalculateAttrition | Backend/analytics/views.py:156-197 | every employee's risk row is written afresh, other rows stay, awards are untouched, and the count equals the number of employees |
| Analytics.AnalyticsStore.EmployeeOfMonth | Backend/analytics/views.py:66-151 | an existing month award is returned unchanged; otherwise no employees gives 404, and some employees give a new award to the first best one with its score |
| Sentiment.AnyKeywordInIff | Backend/leaves/ml_sentiment.py:28 | the scan over the keyword list succeeds exactly when one of the keywords is a substring of the text |
| Sentiment.LowerOfUpper | Backend/leaves/ml_sentiment.py:27 | lower-casing an upper-cased text gives the lower-cased text |
| Sentiment.LeaveRiskLevel | Backend/leaves/ml_sentiment.py:31-36 | high exactly below −0.3, medium exactly in [−0.3, 0), low exactly from 0 on |
| Sentiment.LeaveRiskLevelAntitone | Backend/leaves/ml_sentiment.py:31-36 | a more negative polarity never gives a lower risk level |
| Sentiment.AnalyzeLeaveSentiment | Backend/leaves/ml_sentiment.py:7-43 | polarity and subjectivity pass through, the level follows the polarity thresholds, and the burnout flag is set exactly when one of the fourteen keywords occurs in the lower-cased reason |
| Sentiment.LeaveBurnoutIgnoresCase | Backend/leaves/ml_sentiment.py:27-28 | the burnout flag is the same whatever the case of the reason |
| Sentiment.GetSentimentRecommendation | Backend/leaves/ml_sentiment.py:46-69 | the list built by appending equals the reference list: two entries for burnout, two for high risk, one below −0.5, in that order |
| Sentiment.VeryNegativeGetsThree | Backend/leaves/ml_sentiment.py:62-67 | a polarity below −0.5 always ends the list with the two high-risk entries followed by the extended-leave one |
| Sentiment.NoRecommendationsIff | Backend/leaves/ml_sentiment.py:56-69 | the list is empty exactly when there is no burnout keyword and the polarity is at least −0.3 |
| Sentiment.LabelOf | Backend/leaves/ml_utils.py:20-25 | positive exactly above 0.1, negative exactly below −0.1, neutral in between, bounds included |
| Sentiment.AnalyzeSentiment | Backend/leaves/ml_utils.py:7-36 | absent or empty text is neutral with score 0 and no flag; otherwise the score is the polarity with its label, and the flag is set exactly when one of the ten keywords occurs in the lower-cased text |
| Sentiment.SharedKeywords | Backend/leaves/ml_utils.py:28-31 | every free-text keyword except "overworked" is also a leave-reason keyword |
| Sentiment.TextFlagImpliesLeaveFlag | Backend/leaves/ml_utils.py:33-34 | text flagged by the free-text list is flagged by the leave-reason list too, or it contains "overworked" |
| Sentiment.LabelMonotone | Backend/leaves/ml_utils.py:20-25 | raising the score never lowers the label |
| Sentiment.TenureWeight | Backend/leaves/ml_utils.py:50-55 | 30 exactly under six months, 20 exactly from six to eleven months, 0 exactly from twelve months on |
| Sentiment.AttritionScore | Backend/leaves/ml_utils.py:44-81 | the score lies in [0, 100] |
| Sentiment.AttritionLevel | Backend/leaves/ml_utils.py:84-92 | high exactly from 60, medium exactly from 30 to 59, low exactly below 30 |
| Sentiment.CalculateAttritionRisk | Backend/leaves/ml_utils.py:39-94 | the score built factor by factor equals the sum of the four weights and lies in [0, 100]; level and recommendation follow the score |
| Sentiment.AttritionScoreMonotone | Backend/leaves/ml_utils.py:47-81 | a shorter tenure, more recent leaves, a declining trend or a lower salary never lowers the score |
| Sentiment.AttritionLevelMonotone | Backend/leaves/ml_utils.py:84-92 | a higher score never gives a lower level |
| Sentiment.HighNeedsTwoFactors | Backend/leaves/ml_utils.py:47-85 | no single factor reaches the high level; it takes at least two |
| Leaves.ParseType | Backend/leaves/models.py:13-19 | a value read as a type is that type's stored value |
| Leaves.ParseTypeCode | Backend/leaves/models.py:13-19 | every type's stored value reads back as that type |
| Leaves.SingleDayIsOne | Backend/leaves/models.py:52-55 | a leave that starts and ends on the same day lasts one day |
| Leaves.DaysCountExtends | Backend/leaves/models.py:52-55 | moving the end one day later adds one day |
| Leaves.DaysCountPositiveIff | Backend/leaves/models.py:52-55 | the count is at least one exactly when the end is not before the start |
| Leaves.DefaultAvailable | Backend/leaves/models.py:64-100 | a fresh balance has 12 casual, 8 sick, 5 personal, 5 earned and 0 comp-off days left |
| Leaves.Debit | Backend/leaves/views.py:166-177 | the approved type's available days drop by the day count; allocations and every other type stay as they were |
| Leaves.CheckedThenApprovedStaysCovered | Backend/leaves/views.py:39-59 | a request that passed the balance check, of a checked type, leaves a non-negative balance when it is approved from the same balance |
| Leaves.ApprovalCanOverdraw | Backend/leaves/views.py:160-177 | approval does not check the balance: approving more days than are left drives it negative, and earned leave is never checked at application |
| Leaves.ValidateDates | Backend/leaves/serializers.py:22-30 | a missing date passes; two dates pass exactly when the day count is at least one |
| Leaves.SingleDayAccepted | Backend/leaves/serializers.py:27 | a one-day leave passes the date check |
| Leaves.NewRequest | Backend/leaves/views.py:61-66 | the stored request belongs to the applicant, is pending and unapproved, keeps the submitted type and dates, carries the polarity and the burnout flag of the sentiment analysis, and gets a fresh "leave_" id |
| Leaves.ReadOnlyFieldsIgnored | Backend/leaves/serializers.py:20 | whatever a client puts in the read-only fields, the stored request is the same |
| Leaves.BalanceGuard | Backend/leaves/views.py:39-59 | refuses exactly when the checked type has fewer days left than requested, and then reports the days left |
| Leaves.LeaveStore.GetOrCreateBalance | Backend/leaves/views.py:34-37 | returns the stored balance for the key, or a fresh default one, which is then stored; requests are untouched |
| Leaves.LeaveStore.ApplyLeave | Backend/leaves/views.py:17-81 | invalid input changes nothing; otherwise the balance row is created if missing, a short balance is refused with the days left, and anything else is appended as a new pending request and answered with its analysis and recommendations |
| Leaves.LeaveStore.Store | Backend/leaves/views.py:61-76 | exactly one pending request is appended, its primary key is the new table length, balances are untouched, and the answer carries the reason's sentiment analysis and the recommendations for it |
| Leaves.LeaveStore.ApproveLeave | Backend/leaves/views.py:141-189 | an unknown id is 404 and a non-pending request 400, both with no change; a missing balance row aborts with no change; otherwise the type's balance is debited and the request becomes approved by the approver |
| Leaves.LeaveStore.RejectLeave | Backend/leaves/views.py:194-220 | the same 404 and 400 answers; otherwise the request becomes rejected by the approver, and no balance moves |
| Attendance.PresentInRange | Backend/attendance/views.py:78-86 | the present rows of the employee in the range never outnumber the table |
| Attendance.PresentInRangeAppend | Backend/attendance/views.py:78-86 | the present days of two tables read one after the other add up |
| Attendance.PresentInRangeSingle | Backend/attendance/views.py:78-86 | a single row counts 1 exactly when it is the employee's, dated in the range and present, and 0 otherwise |
| Attendance.AttendanceHistory | Backend/attendance/views.py:57-99 | the range defaults to the first of the month through today; the total counts both ends; the percentage is present over total, rounded to two places, and 0 for an empty or reversed range |
| Attendance.HistoryPercentageBounds | Backend/attendance/views.py:85-95 | with no more present days than days in range the percentage lies in [0, 100], and full attendance is exactly 100 |
| Attendance.ReversedRangeIsZero | Backend/attendance/views.py:85-87 | a range that ends before it starts reports 0% |
| Attendance.CompOffEarned | Backend/attendance/serializers.py:33-35 | eight hours make one day: the days times 8 are the hours |
| Attendance.OvertimeSecondsAsWritten | Backend/attendance/serializers.py:42-52 | the code as written raises exactly when the end is before the start and the day is the last of its month |
| Attendance.AsWrittenAgreesWhenItAnswers | Backend/attendance/serializers.py:44-52 | whenever the code as written does not raise, it measures the shift as the corrected rule does |
| Attendance.OvernightOnLastDayRaises | Backend/attendance/serializers.py:47-50 | a 22:00 to 02:00 shift on 31 January raises, while the corrected rule counts four hours |
| Attendance.OvertimeHours | Backend/attendance/serializers.py:42-53 | the hours from start to end, taking the end on the next day when it is earlier, rounded to two places; they lie in [0, 24] |
| Attendance.OvertimeHoursMonotone | Backend/attendance/serializers.py:52-53 | a later end on the same day never gives fewer hours |
| Attendance.ValidatedHours | Backend/attendance/serializers.py:37-55 | with both times the recomputed hours replace the client's figure; otherwise the client's figure stands |
| Attendance.AttendanceStore.MarkAttendance | Backend/attendance/views.py:17-52 | a second mark on the same day is refused and adds nothing; otherwise one row is added with the requested status, present by default; at most one row per employee and day is kept |
| Attendance.AttendanceStore.MarkOvertime | Backend/attendance/views.py:129-165 | a valid request stores the record with the recomputed hours and adds hours / 8 to the comp-off balance for the current year, creating the balance if it is missing, the sum stored rounded half-even to two decimal places as its `DecimalField` keeps it; an invalid one changes nothing |
| Attendance.StoredCompOffDrifts | Backend/attendance/views.py:148-149 | one overtime hour earns 0.125 days, but the stored balance is 0.12, and a second hour leaves 0.24 rather than 0.25 |
| Payroll.CalculatePayroll | Backend/payroll/views.py:157-209 | HRA is 40% and DA 20% of basic; PF is 12% of basic and the professional tax is 200; under 26 present days gross is the full gross times the days over 26, otherwise the full gross; net is gross less the deductions; the status is finalized |
| Payroll.GrossWithinFullMonth | Backend/payroll/views.py:189-193 | prorated gross lies between 0 and the full gross, and equals the full gross exactly when there are at least 26 present days or basic is zero |
| Payroll.NetGrowsWithAttendance | Backend/payroll/views.py:189-196 | more present days never lower the net pay |
| Payroll.NoAttendanceNetIsNegative | Backend/payroll/views.py:195-196 | net pay has no floor: with no present days it is −(12% of basic + 200) |
| Payroll.Quantized | Backend/payroll/models.py:23-33 | the stored figures have two decimal places, and the day count and status are kept |
| Payroll.SignatureTextAmbiguous | Backend/payroll/models.py:52 | employee 1 in month 11 and employee 11 in month 1 of the same year and net pay hash the same text |
| Payroll.Payslip.Save | Backend/payroll/models.py:46-55 | an empty public id becomes "payslip_" and twelve fresh hex digits; an empty signature becomes the SHA-256 of employee, month, year and net pay; values already set are never changed, nor are the figures |
| Payroll.RunStep | Backend/payroll/views.py:91-108 | the run over one more employee is the run so far followed by one loop pass |
| Payroll.StepAppends | Backend/payroll/views.py:91-108 | a loop pass either changes nothing or appends one finalized payslip for the month and counts it |
| Payroll.RunAppends | Backend/payroll/views.py:91-108 | a run only appends, one finalized payslip for the month per payslip it counts |
| Payroll.RunKeepsKeysUnique | Backend/payroll/models.py:43 | a run keeps at most one payslip per employee, month and year |
| Payroll.RunLastStep | Backend/payroll/views.py:91-105 | the last pass keeps every row and leaves the last employee with a payslip for the month |
| Payroll.RunCoversEmployees | Backend/payroll/views.py:91-105 | after a run every listed employee has a payslip for the month |
| Payroll.RunSkipsCovered | Backend/payroll/views.py:92-94 | a run over employees who all have a payslip for the month changes nothing, generates 0 and pays out 0 |
| Payroll.RunTwiceGeneratesNothing | Backend/payroll/views.py:87-108 | an immediate second run for the same month creates nothing and pays out nothing |
| Payroll.PayslipTable.Visit | Backend/payroll/views.py:92-108 | one pass of the loop, as the reference step states it |
| Payroll.PayslipTable.GeneratePayroll | Backend/payroll/views.py:79-119 | the table, the count and the payout are those of the reference run over the employees in table order, and the table stays unique |
| Payroll.VerifyPayslip | Backend/payroll/views.py:124-154 | a missing payslip is reported exactly for a key outside the table; a payslip verifies only if its stored signature is a 64-digit hex digest |
| Payroll.CreatedRowVerifies | Backend/payroll/views.py:137-142 | a payslip whose signature was computed from its two-place net pay verifies |
| Payroll.DownloadAccess | Backend/payroll/views.py:52-65 | 404 exactly for a missing payslip; access exactly for its own employee, an admin or a payroll officer |
| Payroll.OthersCannotDownload | Backend/payroll/views.py:60-65 | an employee or HR officer gets no one else's payslip |
| PayrunTask.PayslipFor | Backend/payroll/tasks.py:20-61 | gross is basic plus the user's HRA and DA percentages, stored in full; deductions are 12% of basic plus 200; net is gross times present days over 26 less the deductions; the day and leave counts are those of the payrun's month; the working days stored are 26; the status is draft (the intended body; see Left out) |
| PayrunTask.NetNotCappedAtFullMonth | Backend/payroll/tasks.py:41-43 | more than 26 present days pay more than the full gross less deductions |
| PayrunTask.AgreesWithViewCalculation | Backend/payroll/tasks.py:31-43 | with 40% HRA, 20% DA and at most 26 present days the job's net equals the one from Backend/payroll/views.py |
| PayrunTask.Batch | Backend/payroll/tasks.py:19-63 | one payslip per listed employee, in list order |
| PayrunTask.CountForAppend | Backend/payroll/tasks.py:46-61 | counting payslips distributes over concatenation |
| PayrunTask.BatchOnePerEmployee | Backend/payroll/tasks.py:19-63 | a batch over distinct employees holds exactly one payslip for each listed employee and none for anyone else |
| PayrunTask.BatchCountStep | Backend/payroll/tasks.py:19-63 | one more employee adds one payslip to that employee's count |
| PayrunTask.PayrunStore.GeneratePayslipsForPayrun | Backend/payroll/tasks.py:8-73 | an unknown payrun ends in the error message with no change; otherwise every active employee gets a draft payslip, the payrun records their number and moves to processing, and the message reports the number (the intended body; see Left out) |
| PayrunTask.RerunDuplicates | Backend/payroll/tasks.py:19-63 | nothing checks for existing payslips: running the job twice leaves two payslips for each active employee |
| Workflows.Approve | Backend/workflows/views.py:43-48 | one approval moves the step on by one and completes the instance once no step is left; otherwise the status is kept |
| Workflows.Reject | Backend/workflows/views.py:73 | only the status changes, to rejected |
| Workflows.ApprovalsWalkTheSteps | Backend/workflows/views.py:43-48 | a fresh instance stays pending through its first approvals and completes exactly at the approval of its last step |
| Workflows.ApprovalIgnoresRejection | Backend/workflows/views.py:43-48 | approval does not look at the status: the last approval of a rejected instance completes it |
| Workflows.RejectIdempotent | Backend/workflows/views.py:73-74 | rejecting twice is rejecting once |
| Workflows.WorkflowStore.ApproveWorkflow | Backend/workflows/views.py:30-55 | an unknown id is a 404 with no change; otherwise exactly that instance receives one approval |
| Workflows.WorkflowStore.RejectWorkflow | Backend/workflows/views.py:60-79 | an unknown id is a 404 with no change; otherwise exactly that instance is rejected |
| Sync.StrLessTotal | Backend/sync/sync_utils.py:14 | Python's string order is total |
| Sync.StrLessTransitive | Backend/sync/sync_utils.py:14 | Python's string order is transitive |
| Sync.StrLessAsymmetric | Backend/sync/sync_utils.py:14 | Python's string order is asymmetric |
| Sync.LeastExists | Backend/sync/sync_utils.py:14 | every finite non-empty set of keys has a least key |
| Sync.Least | Backend/sync/sync_utils.py:14 | the key returned is in the set and below every other key |
| Sync.SortedKeys | Backend/sync/sync_utils.py:14 | the keys, each once, in strictly increasing order |
| Sync.SortedPrepend | Backend/sync/sync_utils.py:14 | a key below all of a sorted list keeps it sorted when put in front |
| Sync.PrintableAsciiConcat | Backend/sync/sync_utils.py:14 | two printable-ASCII texts joined are printable ASCII |
| Sync.HexDigit | Backend/sync/sync_utils.py:14 | a hexadecimal digit is a printable ASCII character |
| Sync.UnitEscape | Backend/sync/sync_utils.py:14 | a `\uXXXX` escape is six printable ASCII characters |
| Sync.EscapeChar | Backend/sync/sync_utils.py:14 | every character is written in printable ASCII, and a character is kept as it is exactly when it is printable ASCII other than the quote and the backslash |
| Sync.EscapeText | Backend/sync/sync_utils.py:14 | the escaped text is printable ASCII and no shorter than the input |
| Sync.PlainTextUnescaped | Backend/sync/sync_utils.py:14 | a text of printable ASCII without quotes or backslashes is written unchanged |
| Sync.DeleteIsEscaped | Backend/sync/sync_utils.py:14 | the DEL character is written as `\u007f` |
| Sync.LookupFinds | Backend/sync/sync_utils.py:13-14 | in a dictionary, a key's lookup gives a value exactly when that key and value form an entry |
| Sync.KeyHasValue | Backend/sync/sync_utils.py:13-14 | every key of a dictionary has a value |
| Sync.DictJson | Backend/sync/sync_utils.py:14 | the text is an object, starting with "{" and ending with "}" |
| Sync.Fingerprint | Backend/sync/sync_utils.py:9-18 | the SHA-256 hex digest of the serialised document: sorted-key JSON for a dictionary, its text otherwise |
| Sync.SameEntriesSameKeys | Backend/sync/sync_utils.py:13-14 | dictionaries with the same entries have the same keys |
| Sync.DictJsonIgnoresKeyOrder | Backend/sync/sync_utils.py:14 | the serialised text does not depend on the order in which keys were inserted |
| Sync.FingerprintIgnoresKeyOrder | Backend/sync/sync_utils.py:9-18 | two dictionaries with the same entries in different insertion orders get the same fingerprint |
| Sync.MembersAgree | Backend/sync/sync_utils.py:14 | keys with equal values in two dictionaries are written alike |
| Sync.VerifyIntegrity | Backend/sync/sync_utils.py:71-84 | true exactly when a fingerprint is stored for the document and equals the given one; a missing record gives false |
| Sync.StoredDocumentVerifies | Backend/sync/sync_utils.py:9-84 | a document whose fingerprint was stored verifies against the fingerprint of any document with the same text |
| WorkzenAccounts.AllSpaceAppend | workzen_backend/accounts/serializers.py:15 | a joined text is blank exactly when both parts are |
| WorkzenAccounts.FullNameFallback | workzen_backend/accounts/serializers.py:14-15 | the username shows exactly when both names are blank; otherwise the name is non-empty and neither starts nor ends with white space |
| WorkzenAccounts.ValidateRegister | workzen_backend/accounts/serializers.py:23-45 | after the fields are stripped: a blank username, a taken username, a sent e-mail that is taken and a password under eight characters are each reported exactly when they occur (a taken username only when it is not blank); a mismatch of the two passwords is reported exactly when all four field checks pass |
| WorkzenAccounts.TrimmedOrEmpty | workzen_backend/accounts/serializers.py:47-64 | a sent optional field is stored stripped, a missing one blank |
| WorkzenAccounts.CreateUser | workzen_backend/accounts/serializers.py:47-64 | the user is an active Employee; username, password, e-mail, names, phone, department and designation are the submitted values stripped of surrounding white space, blank when not sent |
| WorkzenAccounts.RegistrationKeepsUsernamesUnique | workzen_backend/accounts/serializers.py:37-40 | an accepted registration keeps usernames unique, and the same username registering again, with or without surrounding white space, is refused |
| WorkzenAccounts.AcceptedPasswordsAreLongAndConfirmed | workzen_backend/accounts/serializers.py:24-35 | an accepted password has at least eight characters and matches its confirmation |
| WorkzenAccounts.UserTable.Register | workzen_backend/accounts/serializers.py:23-64 | an accepted registration appends exactly the created user; a refused one changes nothing; usernames stay unique |
| WorkzenAttendance.ShiftHours | workzen_backend/attendance/models.py:30-34 | the hours lie in [0, 24) and are the shift's seconds over 3600, a check-out before the check-in falling on the next day |
| WorkzenAttendance.CalculateHours | workzen_backend/attendance/models.py:28-40 | without both times nothing changes; otherwise the hours are stored to two places, 8 or more hours make the row Present, 4 to 8 Half-Day, and a shorter shift keeps the status |
| WorkzenAttendance.FullDayStaysPresent | workzen_backend/attendance/models.py:36-37 | once a shift reaches eight hours, a later check-out on the same day keeps it Present |
| WorkzenAttendance.LongerShiftCanBeMarkedDown | workzen_backend/attendance/models.py:36-39 | after a check-in, 09:00 to 10:00 stays Present while 09:00 to 15:00 becomes Half-Day |
| WorkzenAttendance.StoredHoursBounded | workzen_backend/attendance/models.py:34-35 | the stored hours lie in [0, 24] |
| WorkzenAttendance.AttendanceTable.GetOrCreate | workzen_backend/attendance/views.py:13-16 | returns the day's row, created empty when missing, and the row is stored |
| WorkzenAttendance.AttendanceTable.MarkAttendance | workzen_backend/attendance/views.py:11-29 | the day's row always exists afterwards; a check-in is stored only on a row without one and makes it Present; otherwise a check-out is stored with hours and status worked out when the row has a check-in; anything else is a 400; a stored check-in never changes |
| WorkzenLeaves.CodesDistinct | workzen_backend/leaves/models.py:5-15 | each stored type and status value names one choice |
| WorkzenLeaves.NewLeave | workzen_backend/leaves/models.py:17-24 | a new leave is Pending with no reviewer and no rejection reason, and keeps its user, type, dates and reason |
| WorkzenLeaves.SameCountAsFirstBackend | workzen_backend/leaves/models.py:34-36 | this back end counts a leave's days as Backend/leaves/models.py does |
| WorkzenLeaves.ReversedDatesCountNothing | workzen_backend/leaves/models.py:34-36 | an end before the start gives zero or fewer days |
| WorkzenPayroll.ProvidentFund | workzen_backend/payroll/models.py:30 | PF is 12% of basic, rounded to cents |
| WorkzenPayroll.DayRate | workzen_backend/payroll/models.py:31 | the day rate times the working days is basic |
| WorkzenPayroll.AbsentDeduction | workzen_backend/payroll/models.py:32 | the absence deduction is a whole number of cents |
| WorkzenPayroll.FullAttendanceNet | workzen_backend/payroll/models.py:29-34 | with no absent days, net is basic less PF and the tax |
| WorkzenPayroll.NetFallsWithAbsence | workzen_backend/payroll/models.py:31-34 | each further absent day can only lower net pay |
| WorkzenPayroll.WholeMonthAbsent | workzen_backend/payroll/models.py:31-34 | a whole month absent deducts the whole basic salary |
| WorkzenPayroll.Payrun.CalculatePayroll | workzen_backend/payroll/models.py:28-35 | gross is basic; PF is rounded; deductions are PF, the tax and the rounded absence deduction; net is gross less deductions; the inputs are unchanged |
| AttendanceCalendar.GenerateCalendar | src/components/MyAttendance.jsx:151-197 | the loop builds as many weeks as the reference grid has (five, or six when the month does not fit), each of seven cells, and every cell is the reference cell at its position |
| AttendanceCalendar.FillWeek | src/components/MyAttendance.jsx:168-191 | one pass of the inner loop yields exactly the reference week at that row, and leaves both day counters at the counts of month and next-month days shown so far |
| AttendanceCalendar.GridShape | src/components/MyAttendance.jsx:157-193 | a grid that holds the month shows previous-month days exactly before the first weekday, rising by one up to that month's last day; each day of the month sits at exactly one position; the next month's days start at 1 |
| AttendanceCalendar.MonthFitsGrid | src/components/MyAttendance.jsx:155-193 | every real month fits the grid, and it needs a sixth week exactly when it overruns 35 cells |
| AttendanceCalendar.PrevMonthLastDay | src/components/MyAttendance.jsx:160 | the previous month's last day lies in 28..31: the length of the month before, or 31 before January |
| AttendanceCalendar.MonthGrid | src/components/MyAttendance.jsx:151-199 | the grid of a date's month is the reference grid for that month's first weekday and length |
| AttendanceCalendar.MyAttendancePage.Calendar | src/components/MyAttendance.jsx:199 | the rendered calendar is the reference grid of the shown month |
| AttendanceCalendar.MyAttendancePage.PrevMonth | src/components/MyAttendance.jsx:215-219 | the shown date becomes day 1 of the month before, which lies exactly that month's length before day 1 of the old month |
| AttendanceCalendar.MyAttendancePage.NextMonth | src/components/MyAttendance.jsx:221-225 | the shown date becomes day 1 of the month after, which lies exactly the old month's length after its day 1 |
| AttendanceCalendar.EmployeeAttendancePage.Calendar | src/components/employee/MyAttendance.jsx:93-141 | the rendered calendar is the reference grid of the shown month |
| AttendanceCalendar.EmployeeAttendancePage.PrevMonth | src/components/employee/MyAttendance.jsx:157-161 | day 1 of the month before; the photo-attendance toggle is kept |
| AttendanceCalendar.EmployeeAttendancePage.NextMonth | src/components/employee/MyAttendance.jsx:163-167 | day 1 of the month after; the photo-attendance toggle is kept |
| AttendanceCalendar.EmployeeAttendancePage.OpenPhotoAttendance | src/components/employee/MyAttendance.jsx:193 | the photo view replaces the log, and the shown month is kept |
| AttendanceCalendar.EmployeeAttendancePage.BackToLog | src/components/employee/MyAttendance.jsx:169-173 | the log shows again, on the same month |
| Profile.SplitOnSpace | src/components/UserProfile.jsx:92 | at least one piece, and no piece holds a space |
| Profile.JoinSplit | src/components/UserProfile.jsx:91-94 | joining the pieces with spaces gives the text back |
| Profile.SplitAtSpace | src/components/UserProfile.jsx:92 | a space splits a text into the pieces before it and the pieces after it |
| Profile.FirstCharsAppend | src/components/UserProfile.jsx:93-94 | taking first characters distributes over concatenation |
| Profile.Initials | src/components/UserProfile.jsx:90-96 | the initials are never longer than the name |
| Profile.FirstCharsAtMostJoined | src/components/UserProfile.jsx:93-94 | there are no more first characters than characters in the joined text |
| Profile.InitialsOfTwoParts | src/components/profile/UserProfile.jsx:195-201 | the initials of "first last" are those of the first part followed by those of the second |
| Profile.InitialsOfWord | src/components/profile/UserProfile.jsx:195-201 | one word without spaces gives its upper-cased first character |
| Profile.NoSpaceIsOneWord | src/components/UserProfile.jsx:92 | a text without spaces is one piece |
| Profile.CanViewSalary | src/components/UserProfile.jsx:65-66 | exactly an Administrator or a Payroll Officer |
| Profile.ResetCheck | src/components/UserProfile.jsx:128-151 | the first failing check wins: a missing old password (not asked of an administrator), a missing new password, one under eight UTF-16 code units, a confirmation that differs; nothing fails exactly when all pass |
| Profile.AstralPasswordLongEnough | src/components/UserProfile.jsx:143 | a new password of four emoji is eight code units long and passes, although it has four characters |
| Profile.AdminSkipsOldPassword | src/components/profile/UserProfile.jsx:238 | an administrator is never asked for the old password, whatever the form holds |
| Profile.PasswordReset.Change | src/components/UserProfile.jsx:122-126 | the named field (login id, old, new or confirmation) takes the value, the others are kept, and both messages are cleared; the login id input is disabled for anyone but an administrator, so for them it changes nothing |
| Profile.PasswordReset.Reset | src/components/profile/UserProfile.jsx:233-268 | a refused reset shows the first failing check's message and keeps the form; an accepted one shows the success message and clears the three password fields, keeping the login id |
| Profile.RemoveAt | src/components/UserProfile.jsx:106-108 | an index in range removes exactly that element and keeps the others in order; any other index removes nothing |
| Profile.ItemList.Add | src/components/UserProfile.jsx:98-104 | blank input does nothing; otherwise the trimmed text is appended, the input cleared and the dialog closed |
| Profile.ItemList.Remove | src/components/UserProfile.jsx:118-120 | exactly the element at the index goes; the others keep their order |
| Profile.EditableSection.Edit | src/components/profile/UserProfile.jsx:68-71 | the dialog opens on a copy of the saved value |
| Profile.EditableSection.Update | src/components/profile/UserProfile.jsx:68-81 | a change touches only the copy |
| Profile.EditableSection.Save | src/components/profile/UserProfile.jsx:73-77 | the copy replaces the saved value and the dialog closes |
| Profile.EditableSection.Cancel | src/components/profile/UserProfile.jsx:79-82 | the dialog closes and the saved value is as it was |
| PayrollPageUi.StatusFor | src/components/payroll/PayrollPage.jsx:262-271 | a payrun is done exactly when every payslip in it is done, pending otherwise |
| PayrollPageUi.ValidateEmployees | src/components/payroll/PayrollPage.jsx:256-260 | the payslips of the named employee become done, every other payslip keeps its status, the list keeps its length |
| PayrollPageUi.ValidatingTwiceChangesNothing | src/components/payroll/PayrollPage.jsx:256-260 | validating the same payslip twice is the same as once |
| PayrollPageUi.LastValidationCompletes | src/components/payroll/PayrollPage.jsx:256-271 | when only the named payslips were left pending, validating them makes the payrun done |
| PayrollPageUi.FindPeriod | src/components/payroll/PayrollPage.jsx:294-296 | the index found holds a payrun of that period; none is found only when no payrun has that period |
| PayrollPageUi.Filtered | src/components/payroll/PayrollPage.jsx:179-182 | the Payrun tab lists exactly the pending payruns, the Validate tab exactly the done ones |
| PayrollPageUi.NetAmount | src/components/payroll/PayrollPage.jsx:224-232 | net pay plus the deductions equals the gross of the allowances |
| PayrollPageUi.ShownPayslipTotals | src/components/payroll/PayrollPage.jsx:209-232 | the payslip shown totals 50000 gross, 6200 deducted and 43800 net |
| PayrollPageUi.ValidateInPeriod | src/components/payroll/PayrollPage.jsx:252-276 | payruns of the period have their named payslips validated and their status recomputed; other payruns are unchanged |
| PayrollPageUi.StoreInPeriod | src/components/payroll/PayrollPage.jsx:308-320 | payruns of the period receive the validated list and its status; other payruns are unchanged |
| PayrollPageUi.PayrollPage.Open | src/components/payroll/PayrollPage.jsx:335-338 | the clicked payslip and its period become selected; the payruns and tab are untouched |
| PayrollPageUi.PayrollPage.Validate | src/components/payroll/PayrollPage.jsx:249-290 | with nothing selected nothing changes; otherwise the selected period's payruns are validated, each payrun's status stays consistent with its payslips, the selection is cleared and the Validate tab shown |
| PayrollPageUi.PayrollPage.ValidateFromTable | src/components/payroll/PayrollPage.jsx:292-329 | an unknown period changes nothing; otherwise the first matching payrun's validated list is stored in the period's payruns, status stays consistent, and the Validate tab is shown exactly when the payrun completed |
| TimeOff.InclusiveDays | src/components/admin/TimeOffList.jsx:172-177 | the day count is the whole days from start to end plus one, both ends counted |
| TimeOff.InclusiveDaysSigns | src/components/admin/TimeOffList.jsx:172-177 | a same-day request counts one day; an end before the start counts zero or fewer, since nothing forbids it |
| TimeOff.NewRequest | src/components/admin/TimeOffList.jsx:179-188 | a submitted request is pending, carries the fixed employee id EMP001 and the inclusive day count, and has no approver, date or reason |
| TimeOff.Search | src/components/admin/TimeOffList.jsx:209-211 | a request is found exactly when its employee name contains the query, ignoring case |
| TimeOff.EmptySearchKeepsAll | src/components/TimeOffList.jsx:107-109 | an empty query lists every request, in order |
| TimeOff.TimeOffTab | src/components/admin/TimeOffList.jsx:213-223 | a Time Off tab shows exactly the found requests of its type that are not approved |
| TimeOff.NotApproved | src/components/admin/TimeOffList.jsx:214-216 | exactly the requests whose status is not Approved are kept |
| TimeOff.OfType | src/components/TimeOffList.jsx:111-116 | exactly the requests of the given type are kept |
| TimeOff.ApprovedLeaveTheTimeOffTabs | src/components/admin/TimeOffList.jsx:213-223 | an approved request appears on neither Time Off tab |
| TimeOff.ApprovedDaysAppend | src/components/admin/TimeOffList.jsx:227-229 | the used days of two lists together are the sum of their used days |
| TimeOff.OfTypeKeepsDays | src/components/TimeOffList.jsx:118-121 | narrowing to one type first does not change that type's used days |
| TimeOff.SearchedAvailableDays | src/components/TimeOffList.jsx:118-127 | the older list shows the allowance less the approved days among the searched requests |
| TimeOff.SearchedAvailability | src/components/TimeOffList.jsx:107-127 | with an empty query the older list counts every approved request; a query that finds nobody shows the full allowance |
| TimeOff.NoApprovedNoDays | src/components/admin/TimeOffList.jsx:227-229 | with no approved request, no days are used |
| TimeOff.Allowance | src/components/admin/TimeOffList.jsx:261 | 24 days of paid time off, 7 days for any other type |
| TimeOff.AvailableDays | src/components/admin/TimeOffList.jsx:260-271 | the available days plus the employee's approved days of that type equal the allowance |
| TimeOff.SubmittingKeepsAvailability | src/components/admin/TimeOffList.jsx:179-192 | appending a pending request leaves every used-days figure unchanged |
| TimeOff.Decide | src/components/admin/TimeOffList.jsx:123-134 | the requests with the id take the new status and approval fields; all others are kept; the list keeps its length |
| TimeOff.DecideElsewhereKeepsDays | src/components/admin/TimeOffList.jsx:123-134 | deciding an id no request carries leaves every used-days figure unchanged |
| TimeOff.AdminTimeOffList.ApproverName | src/components/admin/TimeOffList.jsx:119-121 | the HR officer's name for that role, the administrator's for every other |
| TimeOff.AdminTimeOffList.Approve | src/components/admin/TimeOffList.jsx:117-135 | the request with the id becomes approved by this user on today's date; every other request and the dialogs are unchanged |
| TimeOff.AdminTimeOffList.RejectClick | src/components/admin/TimeOffList.jsx:137-140 | the reject dialog opens for that request; the requests and reason are unchanged |
| TimeOff.AdminTimeOffList.RejectConfirm | src/components/admin/TimeOffList.jsx:142-169 | a blank reason changes nothing; otherwise the request being rejected is rejected with this user, today and the reason, and the dialog is reset |
| TimeOff.AdminTimeOffList.Submit | src/components/admin/TimeOffList.jsx:171-201 | without both dates nothing changes; otherwise exactly one pending request is appended, the dialog closes and the form is reset |
| TimeOff.AdminTimeOffList.AvailablePaidDays | src/components/admin/TimeOffList.jsx:225-230 | the paid days available count every approved paid request, whatever the search |
| TimeOff.AdminTimeOffList.AvailableSickDays | src/components/admin/TimeOffList.jsx:232-236 | the sick days available count every approved sick request, whatever the search |
| TimeOff.TimeOffList.SetStatus | src/components/TimeOffList.jsx:53-67 | the requests with the id take the status, whatever they had; others and the page state are unchanged |
| TimeOff.TimeOffList.Submit | src/components/TimeOffList.jsx:69-99 | without both dates nothing changes; otherwise exactly one pending request is appended, the dialog closes and the form is reset |
| TimeOff.TimeOffList.AvailablePaidDays | src/components/TimeOffList.jsx:118-121 | the paid days available count only the approved requests the search finds |
| TimeOff.TimeOffList.AvailableSickDays | src/components/TimeOffList.jsx:124-127 | the sick days available count only the approved requests the search finds |
| Employees.EmptyTermMatches | src/components/admin/EmployeesPage.jsx:31-36 | an empty search term matches every employee |
| Employees.WithField | src/components/admin/EmployeesPage.jsx:170-260 | editing one text field keeps the employee's id, join date, attendance and status |
| Employees.Search | src/components/admin/EmployeesPage.jsx:31-36 | an employee is listed exactly when the term, ignoring case, is in the name, email, department or job title |
| Employees.EmptySearchKeepsAll | src/components/admin/EmployeesPage.jsx:31-36 | an empty search box lists every employee, in order |
| Employees.ReplaceById | src/components/admin/EmployeesPage.jsx:288-290 | each employee with the edited id is replaced by the edited copy; the rest are kept and the length is unchanged |
| Employees.StatusLabel | src/components/EmployeesPage.jsx:74-94 | the indicator reads Present exactly for "present", On Leave exactly for "on-leave", Absent for every other status |
| Employees.NextId | src/components/admin/EmployeesPage.jsx:469 | the next id carries the number 1243 plus the count of employees |
| Employees.NextIdIsFresh | src/components/admin/EmployeesPage.jsx:469 | while every id is numbered below the next one, the id handed out next belongs to nobody |
| Employees.NewEmployee | src/components/admin/EmployeesPage.jsx:468-477 | the new record has the next id and the form's name, email and department; a blank phone becomes N/A and a blank job title Not Specified; it joins today as absent |
| Employees.AdminEmployeesPage.Shown | src/components/admin/EmployeesPage.jsx:31-36 | exactly the employees matching the search term are on show |
| Employees.AdminEmployeesPage.Add | src/components/admin/EmployeesPage.jsx:462-488 | a record is added exactly when name, email and department are given; the new id is fresh, ids stay distinct, and a refused form changes nothing |
| Employees.AdminEmployeesPage.CancelAdd | src/components/admin/EmployeesPage.jsx:445-457 | the add dialog closes and the form is blanked; the employees are unchanged |
| Employees.AdminEmployeesPage.OpenEdit | src/components/admin/EmployeesPage.jsx:85-86 | the edit dialog opens on a copy of the selected employee |
| Employees.AdminEmployeesPage.EditField | src/components/admin/EmployeesPage.jsx:170-260 | typing changes one field of the copy; the employees are untouched until saved |
| Employees.AdminEmployeesPage.SaveEdit | src/components/admin/EmployeesPage.jsx:281-298 | the copy is saved exactly when name, email and department are given, replacing the record with its id and becoming the selected employee; ids stay distinct |
| Employees.AdminEmployeesPage.CancelEdit | src/components/admin/EmployeesPage.jsx:271-276 | the edit dialog closes and the copy is dropped; the employees are unchanged |
| Employees.ToCard | src/components/EmployeesPage.jsx:39-53 | a card copies the id, email, username, role and status; the name falls back to first and last name; job title, department and phone fall back to fixed texts, so none is blank; attendance shows present |
| Employees.ToCards | src/components/EmployeesPage.jsx:39-53 | one card per user, in order |
| Employees.SearchCards | src/components/EmployeesPage.jsx:63-68 | a card is listed exactly when the term is in its name, email, department or job title, ignoring case |
| Employees.BlankRegisterForm | src/components/EmployeesPage.jsx:130-142 | the reset form is empty, with role employee and joining today |
| Employees.ErrorText | src/components/EmployeesPage.jsx:57 | a server message is shown as given; without one the fallback is shown, so the error is never blank |
| Employees.EmployeeListPage.Fetch | src/components/EmployeesPage.jsx:32-61 | on success the list is the users transformed and the error cleared; on failure the list is kept and the error shown; loading ends either way |
| Employees.EmployeeListPage.Add | src/components/EmployeesPage.jsx:113-149 | a form the browser refuses (a required field empty, or an e-mail failing the syntax check) changes nothing, so the handler's own missing-fields message is never reached; a refused registration shows its message; an accepted one reloads the list, resets the form and closes the modal; submitting ends either way |
| Employees.EmployeeListPage.CloseModal | src/components/EmployeesPage.jsx:151-167 | the modal closes, its error clears and the form is reset; the list and the loading flag are untouched |
| Employees.CountsAfterAppend | Prod/src/components/hr/EmployeeDirectory.tsx:321-343 | appending an employee raises the Engineering, Sales and Marketing and Active counts by one exactly when the employee belongs to each |
| Employees.HrDirectory.Shown | Prod/src/components/hr/EmployeeDirectory.tsx:46-51 | exactly the employees matching the search term are on show |
| Employees.HrDirectory.Add | Prod/src/components/hr/EmployeeDirectory.tsx:53-134 | a form the browser refuses (name, e-mail, phone or job title empty, or an e-mail failing the syntax check) changes nothing; otherwise the form's fields with a random four-digit WZ id, status Active and today's date are appended with no further check; the Active count rises by one; the form is blanked and the dialog closed |
| Employees.HrDirectory.OpenEdit | Prod/src/components/hr/EmployeeDirectory.tsx:227 | the edit dialog opens on the chosen employee |
| Employees.HrDirectory.EditField | Prod/src/components/hr/EmployeeDirectory.tsx:246-290 | typing changes one field of the selected copy; the employees are untouched |
| Employees.HrDirectory.SaveEdit | Prod/src/components/hr/EmployeeDirectory.tsx:68-275 | with nothing selected, or a copy the browser refuses (name, e-mail, phone or job title empty, or an e-mail failing the syntax check), nothing changes; otherwise the copy replaces the records with its id, every id and the length are kept, and the dialog closes |
| AttendanceListUi.IsAdmin | src/components/admin/AttendanceList.jsx:10-13 | exactly the Administrator, HR Officer and Payroll Officer roles see everyone's attendance |
| AttendanceListUi.Description | src/components/admin/AttendanceList.jsx:111-113 | the company-wide description exactly for those roles, the personal one for every other |
| AttendanceListUi.FilterByName | src/components/admin/AttendanceList.jsx:83-85 | a row is shown exactly when its employee name contains the query, ignoring case |
| AttendanceListUi.EmptyQueryShowsAll | src/components/admin/AttendanceList.jsx:83-85 | an empty query shows every row, in order |
| AttendanceListUi.PresentCount | src/components/admin/AttendanceList.jsx:102-104 | the present count never exceeds the rows shown |
| AttendanceListUi.PresentCountAppend | src/components/admin/AttendanceList.jsx:102-104 | one more row raises the count by one exactly when it is shown and present |
| AttendanceListUi.StatusClass | src/components/admin/AttendanceList.jsx:87-100 | each of the four statuses has its own badge, and exactly the other statuses get the default one |
| AttendanceListUi.AttendanceListPage.Shown | src/components/admin/AttendanceList.jsx:83-85 | exactly the rows matching the current query are shown |
| AttendanceListUi.AttendanceListPage.PreviousDate | src/components/admin/AttendanceList.jsx:71-75 | the selected date moves to the day before, one day earlier on the calendar; query and view are kept |
| AttendanceListUi.AttendanceListPage.NextDate | src/components/admin/AttendanceList.jsx:77-81 | the selected date moves to the day after, one day later on the calendar; query and view are kept |
| PhotoAttendanceUi.PunchCheck | src/components/attendance/PhotoAttendance.jsx:166-187 | a punch is refused for a missing photo, then a missing location, then a distance over 100 m without a remote request, then a remote request without a reason; it passes exactly when none applies |
| PhotoAttendanceUi.NextPunchType | src/components/attendance/PhotoAttendance.jsx:240 | the next punch is out exactly after an in, and in otherwise |
| PhotoAttendanceUi.PunchesAlternate | src/components/attendance/PhotoAttendance.jsx:226-240 | successive punches alternate between in and out |
| PhotoAttendanceUi.PhotoAttendance.Capture | src/components/attendance/PhotoAttendance.jsx:95-110 | the camera's picture becomes the captured photo; nothing else changes |
| PhotoAttendanceUi.PhotoAttendance.Retake | src/components/attendance/PhotoAttendance.jsx:113-116 | the captured photo is dropped; nothing else changes |
| PhotoAttendanceUi.PhotoAttendance.LocationFound | src/components/attendance/PhotoAttendance.jsx:128-149 | position and distance are stored and the error cleared; a distance over 100 m ticks the remote request, a nearer one leaves it |
| PhotoAttendanceUi.PhotoAttendance.LocationFailed | src/components/attendance/PhotoAttendance.jsx:119-155 | the matching error text is shown and nothing else changes |
| PhotoAttendanceUi.PhotoAttendance.SetRemoteWorkRequested | src/components/attendance/PhotoAttendance.jsx:382 | the checkbox sets the remote request; nothing else changes |
| PhotoAttendanceUi.PhotoAttendance.SetRemoteReason | src/components/attendance/PhotoAttendance.jsx:389 | the reason box sets the reason; nothing else changes |
| PhotoAttendanceUi.PhotoAttendance.Punch | src/components/attendance/PhotoAttendance.jsx:166-238 | a refused punch changes nothing; an accepted one records the next punch type, shows the popup and clears the photo, location, distance and remote request |
| PhotoAttendanceUi.PhotoAttendance.HidePopup | src/components/attendance/PhotoAttendance.jsx:224 | the popup closes; the punch state is untouched |
| PhotoAttendanceUi.PunchNeedsFreshPhoto | src/components/attendance/PhotoAttendance.jsx:167-170 | without a photo every punch is refused for the photo |
| PhotoAttendanceUi.NearNeedsNoRemote | src/components/attendance/PhotoAttendance.jsx:177-187 | within 100 m a punch with photo and location passes without a remote request |
| PhotoAttendanceUi.ThresholdIsStrict | src/components/attendance/PhotoAttendance.jsx:8 | exactly 100 m is accepted, just beyond it is refused |
| PayslipUi.WithAmount | Prod/src/components/payroll/Payslip.tsx:115-212 | typing a figure sets that one amount and leaves every other amount and the payslip's identity as they were |
| PayslipUi.WithDetail | Prod/src/components/payroll/Payslip.tsx:64-95 | typing a name, designation or department changes no amount and keeps the id, period and pay date |
| PayslipUi.CalculateTotals | Prod/src/components/payroll/Payslip.tsx:29-44 | earnings are the four earning amounts, deductions the three deduction amounts, and net pay plus deductions equals earnings |
| PayslipUi.ChangeMovesNetPay | Prod/src/components/payroll/Payslip.tsx:29-44 | raising one amount by delta moves net pay by delta for an earning and by minus delta for a deduction, and changes only its own total |
| PayslipUi.SampleTotals | Prod/src/components/payroll/Payslip.tsx:12-44 | the sample payslip totals 6750 earned, 700 deducted and 6050 net |
| PayslipUi.PayslipPage.Shown | Prod/src/components/payroll/Payslip.tsx:46 | the totals shown always balance: net pay is earnings less deductions |
| PayslipUi.PayslipPage.StartEditing | Prod/src/components/payroll/Payslip.tsx:300 | edit mode starts and the figures are unchanged |
| PayslipUi.PayslipPage.EditAmount | Prod/src/components/payroll/Payslip.tsx:115-212 | the figure changes at once and the net pay shown moves by the change, up for an earning and down for a deduction |
| PayslipUi.PayslipPage.EditDetail | Prod/src/components/payroll/Payslip.tsx:64-95 | the text changes and the totals shown do not |
| PayslipUi.PayslipPage.Save | Prod/src/components/payroll/Payslip.tsx:48-51 | edit mode ends with the figures as typed |
| PayslipUi.PayslipPage.Cancel | Prod/src/components/payroll/Payslip.tsx:295 | edit mode ends and, as on Save, the typed figures remain |
| PayrollWizard.Completed | Prod/src/components/payroll/GeneratePayroll.tsx:68-82 | a step is ticked exactly when the wizard has moved past it |
| PayrollWizard.Reached | Prod/src/components/payroll/GeneratePayroll.tsx:63 | a step is highlighted exactly when reached, and every ticked step is highlighted |
| PayrollWizard.GeneratePayroll.SelectPeriod | Prod/src/components/payroll/GeneratePayroll.tsx:101 | the period chosen is stored and the step is kept |
| PayrollWizard.GeneratePayroll.Next | Prod/src/components/payroll/GeneratePayroll.tsx:26-34 | the first step without a period alerts and stays; otherwise the wizard moves one step on, never past step 3 |
| PayrollWizard.GeneratePayroll.Back | Prod/src/components/payroll/GeneratePayroll.tsx:36-40 | the wizard moves one step back, never before step 1 |
| PayrollWizard.GeneratePayroll.RunPayroll | Prod/src/components/payroll/GeneratePayroll.tsx:42-46 | the wizard returns to step 1 with no period chosen |
| PayrollWizard.NextThenBack | Prod/src/components/payroll/GeneratePayroll.tsx:26-40 | with a period chosen, Next then Back from steps 1 or 2 returns to the same step |
| LeaveRequestsUi.SetStatus | Prod/src/components/payroll/ManageLeaveRequests.tsx:81-93 | the requests with the id take the new status; all others are kept; the length is unchanged |
| LeaveRequestsUi.PendingRequests | Prod/src/components/payroll/ManageLeaveRequests.tsx:95 | exactly the pending requests |
| LeaveRequestsUi.ProcessedRequests | Prod/src/components/payroll/ManageLeaveRequests.tsx:96 | exactly the requests that are not pending |
| LeaveRequestsUi.Partition | Prod/src/components/payroll/ManageLeaveRequests.tsx:95-134 | pending and processed together count every request, and the approved and rejected counts add up to the processed ones |
| LeaveRequestsUi.DecidedLeavesPending | Prod/src/components/payroll/ManageLeaveRequests.tsx:81-96 | after approving or rejecting, no request with that id is pending, and each such request is among the processed ones |
| LeaveRequestsUi.ManageLeaveRequests.Approve | Prod/src/components/payroll/ManageLeaveRequests.tsx:81-86 | every request with the id becomes approved; nothing else changes |
| LeaveRequestsUi.ManageLeaveRequests.Reject | Prod/src/components/payroll/ManageLeaveRequests.tsx:88-93 | every request with the id becomes rejected; nothing else changes |
| LeaveRequestsUi.ManageLeaveRequests.View | Prod/src/components/payroll/ManageLeaveRequests.tsx:186 | the clicked request is selected; the requests are unchanged |
| ReportsUi.IsAuthorized | src/components/ReportsPage.jsx:9-10 | exactly administrators and payroll officers may see the reports |
| ReportsUi.Years | src/components/ReportsPage.jsx:22-23 | six years, newest first, from the current year back to five years before it, each exactly once |
| ReportsUi.Find | src/components/ReportsPage.jsx:26-34 | the position found holds the selected employee; none is found only when nobody has that id |
| ReportsUi.Heading | src/components/ReportsPage.jsx:26-34 | the first matching employee's name and code, or empty texts when nobody matches |
| ReportsUi.Column | src/components/ReportsPage.jsx:127-143 | one entry per month, in order, taken from the chosen column |
| ReportsUi.TotalsBalance | src/components/ReportsPage.jsx:127-143 | when every month's net is basic plus allowances minus deductions, so is the yearly footer |
| ReportsUi.ConstantSum | src/components/ReportsPage.jsx:127-143 | a column of equal entries totals that entry times the number of months |
| ReportsUi.StatementTotals | src/components/ReportsPage.jsx:36-143 | the statement's footer reads 300000 basic, 180000 allowances, 74400 deductions and 405600 net |
| ReportsUi.ReportsPage.SelectEmployee | src/components/ReportsPage.jsx:283 | the employee choice is stored; the year and whether a report shows are kept |
| ReportsUi.ReportsPage.SelectYear | src/components/ReportsPage.jsx:302 | the year choice is stored; the employee and whether a report shows are kept |
| ReportsUi.ReportsPage.Generate | src/components/ReportsPage.jsx:145-151 | the page alerts exactly when a choice is missing; otherwise the report shows; the choices are kept |
| Common.Utf16Length | Prod/src/components/auth/RegisterPage.tsx:39 | JavaScript's length of a text: between its number of characters and twice that, equal to it when no character lies outside the Basic Multilingual Plane and to twice it when all do |
| Common.SeparatorsStrippedByPythonOnly | workzen_backend/accounts/serializers.py:14 | Python's `strip()` removes a leading information separator U+001F, JavaScript's `trim()` keeps it |
| Common.TrimShape | workzen_backend/accounts/serializers.py:14 | the trimmed text neither starts nor ends with the runtime's white space, and it is empty exactly when the text is all white space |
| RegisterUi.Validate | Prod/src/components/auth/RegisterPage.tsx:33-47 | a mismatch is reported first, then a password under 8 UTF-16 code units, then a missing username or email; the form passes exactly when none applies |
| RegisterUi.ShortBeforeMissing | Prod/src/components/auth/RegisterPage.tsx:33-47 | a short password typed twice alike is reported as short even when the username is missing |
| RegisterUi.BrowserLeavesOnlyMismatch | Prod/src/components/auth/RegisterPage.tsx:95-221 | once the browser's required, minimum-length and e-mail checks pass, the only check of `handleSubmit` that can still fail is the password comparison |
| RegisterUi.FullName | Prod/src/components/auth/RegisterPage.tsx:61 | with no first or last name the full name handed on is empty |
| RegisterUi.RegisterPage.Submit | Prod/src/components/auth/RegisterPage.tsx:29-221 | a form the browser refuses (a required field empty, a password under 8 code units, an e-mail failing the syntax check) changes nothing; otherwise a refused form shows its message and sends nothing; an accepted sign-up hands on the full name and email; a server error shows its message or the fallback; loading ends after a request |
| RouteGuard.Decide | Prod/src/components/ProtectedRoute.tsx:10-28 | signed-out visitors go to login; a stored user whose role is not listed goes to unauthorized; exactly the rest render |
| RouteGuard.WiderListAdmitsMore | Prod/src/components/ProtectedRoute.tsx:21-25 | widening a route's role list never turns away a visitor it let in |
| UserAdminUi.RemoveId | src/components/UserSettings.jsx:58-60 | exactly the users without that id remain, never more than before |
| UserAdminUi.RemoveIdIdempotent | src/components/UserSettings.jsx:58-60 | deleting twice is deleting once |
| UserAdminUi.SetRole | src/components/UserSettings.jsx:62-66 | the users with the id get the new role; nobody else changes; the length is kept |
| UserAdminUi.SetRoleThenRemove | src/components/UserSettings.jsx:58-66 | changing the role of users about to be deleted makes no difference to the table left |
| UserAdminUi.UserSettings.EditNewUser | src/components/UserSettings.jsx:133-168 | the form holds what was typed; the users are unchanged |
| UserAdminUi.UserSettings.AddUser | src/components/UserSettings.jsx:39-56 | a user is added exactly when user name, login id and email are given, with the clock's digits as id, and the form is reset; otherwise nothing changes |
| UserAdminUi.UserSettings.DeleteUser | src/components/UserSettings.jsx:58-60 | every user with that id is removed; the others stay, in order |
| UserAdminUi.UserSettings.ChangeRole | src/components/UserSettings.jsx:62-66 | the users with that id get the new role; nobody else changes |
| UserAdminUi.UserAccessSettings.DeleteUser | src/components/profile/UserSettings.jsx:32-36 | the users with that id are removed only when the deletion is confirmed |
| UserAdminUi.UserAccessSettings.ChangeRole | src/components/profile/UserSettings.jsx:38-42 | the users with that id get the new role; nobody else changes |

## Left out

- Rendering is not modelled: JSX layout, charts, dialogs' markup, badges and the dashboards filled with fixed sample data (`src/components/PayrollPage.jsx`, whose handlers only alert, included).
- HTTP and framework plumbing is not modelled: `Response` construction, URL configuration, admin registrations and serializer field lists. Status codes appear only as outcome values.
- Network and storage clients are not modelled (`src/services/api.js`, `Prod/src/services/api.ts`, `localStorage`), nor `sync_to_supabase`, `create_sync_log` or the sync views. Server answers reach the front-end methods as parameters.
- ORM query sets, transactions and cascades are not modelled; tables are maps and sequences.
- SHA-256, TextBlob polarity and subjectivity, `check_password`, `set_password`, `authenticate`, JWT tokens and Django's `validate_password` validators are inputs or abstract parameters, not computed.
- The Haversine distance, the camera and geolocation in `PhotoAttendance.jsx` are not modelled; the distance is a real input.
- The clock, `uuid4().hex`, `Date.now()` and `Math.random()` are parameters, so the model does not capture id collisions between two requests in the same millisecond or two equal random numbers.
- Floating-point rounding and the 28-digit `Decimal` context are not modelled; amounts are exact reals.
- JavaScript `Number("")` (0) and `NaN` from non-numeric input in the editable payslip are not modelled; typed amounts are reals.
- Case-insensitive search uses ASCII case folding only; the Unicode case rules of `toLowerCase` and `str.lower` beyond ASCII are not modelled.
- White-space trimming covers the ASCII characters each runtime strips (for Python also the separators U+001C to U+001F, which JavaScript keeps); the non-ASCII white space both strip, such as U+0085, U+00A0, U+2028 and U+FEFF, is not modelled.
- `Profile.Initials`, `Profile.InitialsOfWord`, `Profile.FirstChars`: JavaScript's `n[0]` is the first UTF-16 code unit, so for a word starting with a character outside the Basic Multilingual Plane it is a lone high surrogate. A Dafny `char` cannot hold a lone surrogate, so the model takes the whole first character there.
- `Attendance.AttendanceStore.MarkOvertime`: the `max_digits=5` limit of the comp-off balance, past which saving fails, is not modelled.
- The Unicode character database is not part of the model: which characters the regular-expression class `\d` matches is a parameter of the password rules (`Accounts.DecimalClass`).
- Dates before year 1 and time zones are not modelled; "today" is a date parameter.
- A missing optional field (Python `None`, JavaScript `null`) of a text column is modelled as the empty text where the source treats both alike.
- The PDF rendering with reportlab, the Celery `@shared_task` wrapper and the seeding command are not modelled; only the body of `generate_payslips_for_payrun` is.
- `PayrunTask`: the rows for `generate_payslips_for_payrun` model the body its authors evidently intended, not the body as written. As written the task cannot create a payslip:
  - it imports `Payrun` from `Backend/payroll/models.py`, which does not define it;
  - its `Payslip.objects.create` passes `payrun`, `working_days` and `leaves_taken`, which are not fields of `Payslip`, and omits the non-null `month` and `year`;
  - the `try`/`except` at `Backend/payroll/tasks.py:13,72-73` turns such a failure into a returned `"Error: …"` message rather than raising.
- `PayrunTask.RerunDuplicates`: `TaskPayslip` carries no month and year, so the unique constraint of `Payslip` on employee, month and year is not modelled; the lemma states only that the task itself never looks for earlier payslips.
- `RegisterUi.RegisterPage.Submit`: the spread of `response.user` into the data handed on is not modelled; only the full name and e-mail are.
- `Sync.Fingerprint`: only flat dictionaries of text values and plain texts are serialised; nested JSON values are not modelled.
- The analytics dashboards (`get_sentiment_dashboard`, `get_attrition_risk`) and the leave views `get_sentiment_analysis` and `get_pending_leaves` are listing endpoints and are not modelled.
- E-mail address syntax is not checked, as the serializers leave it to Django's field validation. On the front end the browser's `type="email"` check is a boolean parameter of the submit methods that sit behind a form: `RegisterPage.Submit`, `HrDirectory.Add`, `HrDirectory.SaveEdit` and `EmployeeListPage.Add`.
- The browser's `minLength` applies only to a value the user edited; the model assumes every password was typed.
- `WorkzenAccounts.ValidateRegister`: the username's character validator and the `max_length` limits of the model columns are not modelled.
- In the login model e-mail addresses key a map, so two accounts never share an address.
- Month and year reach the payroll and analytics members as integers; their parsing from the query string is not modelled.
- `WorkzenPayroll.Payrun.CalculatePayroll`: requires a non-zero number of working days; the source would raise `ZeroDivisionError` for 0, and that exception is not modelled.
- Several source paths would raise instead of computing. The model gives the intended arithmetic and does not reproduce these crashes:
  - `Decimal × float` or `Decimal += float` at `Backend/payroll/tasks.py:37`, `workzen_backend/payroll/models.py:30` and `Backend/attendance/views.py:148`;
  - `timedelta` not imported at `Backend/leaves/ml_utils.py:61`;
  - `models` undefined at `Backend/leaves/views.py:242`.
- The workzen check-out stores the time string the client sent, so `calculate_hours` would fail on it. The model stores a time of day, as intended.
- `workzen_backend/accounts/views.py`, which defines `post` at module level, and `workzen_backend/accounts/util.py`, which imports a missing `AuditLog`, are not part of this model.

## Findings

| source | as written | input that shows it | evidently intended | confidence | as-written member | corrected member |
|---|---|---|---|---|---|---|
| Backend/attendance/serializers.py:47-50 | an overnight shift moves the end to the next day with `replace(day=day + 1)`, which raises `ValueError` when today is the last day of its month | start 22:00, end 02:00, submitted on 31 January 2025: the serializer raises instead of recording 4.00 hours | add one day to the end (`+ timedelta(days=1)`), so an overnight shift counts its hours on any date | high, not executed | Attendance.OvernightOnLastDayRaises | Attendance.OvertimeHours |
| Backend/users/views.py:66-74 with Backend/users/models.py:86 | a login with an unknown e-mail records a failure audit with `user=None`, but the audit's user column is a non-nullable foreign key, so the insert raises and the request ends in a server error with no audit | any login whose e-mail belongs to no user: the answer is 500 instead of 401 and nothing is audited | the user column nullable (`null=True`), so the failure is audited with no user and the answer is 401 | high, not executed | Users.UserlessAuditRefused | Users.UserlessAuditRecorded |
