# Shift income and statistics — a Dafny model

This project models the arithmetic core of a small backend for recording
work shifts and tip income. The model covers four things:

- **Calculated fields.** A shift has raw fields: `hoursWorked`, `cashTips` and `cardTips`.
  The pre-save hook on the shift document derives `totalTips`, `baseIncome`,
  `totalIncome` and `adjustedHourlyRate` from them and the owning user's
  `hourlyRate`. The update route repeats the same calculation by hand.
- **Statistics.** The `/stats` handler makes one pass over a user's shifts.
  It keeps four running sums and a running highest cash tip and card tip. The
  strict `>` comparison means the first shift reaching the maximum keeps it.
  After the loop it derives combined tips, per-shift averages, the overall
  hourly rate and the income after a fixed 8% tax.
- **Partial update.** The update route copies `hoursWorked` only when it is
  truthy, so a supplied number 0 is ignored. It copies each tip field whenever it is
  present, so a supplied 0 is applied. It then recalculates the derived
  fields.
- **Gates.** Update and delete answer "shift not found" and "not authorized"
  before they touch anything.

Modules:

- `Common` (`common.dfy`): `Option`, the id and date types, and `Quotient`.
  `Quotient` is the result of a JavaScript division: a finite value, or the
  non-finite value that a zero divisor gives. The source guards neither the
  division by `hoursWorked` nor the division by the total hours. The model
  keeps both unguarded and returns `NonFinite` there, with no invented
  sentinel.
- `ShiftModel` (`shift_model.dfy`): the shift document, for
  `server/models/Shift.js`. The spec function `Derive` gives the calculated
  fields. The class `Shift` is the document held in memory. Its constructor
  applies the tip defaults. `Recalculate` assigns the derived fields.
  `PreSave` is the hook: it looks the owner up and fails with
  `UserNotFound` and sets nothing when the owner is missing.
- `ShiftStats` (`shift_stats.dfy`): the statistics handler of
  `server/routes/shifts.js`. `ComputeStats` is the loop. It is proved against
  the spec functions `Total` (sums) and `Highest` (the strict running
  maximum), and `Finish` is the step after the loop. Lemmas tie these to
  independent characterisations:
  - the highest amount is the maximum of 0 and every tip;
  - its day is that of the first shift reaching it;
  - sums and highest amounts do not depend on the order of the shifts;
  - the day of a highest tip can change with the order only when shifts on
    different days tie at a positive amount.
- `ShiftRoutes` (`shift_routes.dfy`): the create, update and delete handlers,
  over a class `ShiftStore` that holds the stored documents by id.

Modelling decisions:

- Money and hours are exact `real`s.
- User lookups (`User.findById`) are a `map` from user id to hourly rate. A
  missing key means the user was not found.
- The clock used for `createdAt` is a `now` parameter.
- Fresh shift ids are a parameter.
- The stored shifts that the database queries return are inputs.

Three behaviours of the code are kept as the code has them:

- The tax share is the constant 0.92, not a parameter.
- When the total hours are 0, `averageHourlyRate` is left non-finite. It is
  not guarded to 0.
- Zero hours do not make the calculation fail: the adjusted rate is simply
  non-finite.

In the update route, `findByIdAndUpdate` writes the merged raw fields before
the owner's rate is looked up. If the owner record is missing, the request
fails, but the stored shift keeps the merged raw fields and its old
calculated fields. `ShiftStore.Update` states this case explicitly.

## Model

| member | source | states |
|---|---|---|
| `Common.Divide` | server/models/Shift.js:62 | the quotient is finite exactly when the divisor is non-zero, and then multiplied by the divisor gives back the dividend |
| `ShiftModel.Derive` | server/models/Shift.js:59-62 | totalTips is cash plus card tips, baseIncome is hours times rate, totalIncome is hours times rate plus both tips, and the adjusted rate is non-finite exactly for zero hours and otherwise equals the rate plus tips per hour and times hours gives totalIncome |
| `ShiftModel.Recalculated` | server/routes/shifts.js:101-104 | recomputing leaves every raw field as it was and makes the calculated fields consistent with the raw fields and the rate |
| `ShiftModel.RecalculateIdempotent` | server/models/Shift.js:59-62 | recalculating twice with the same rate gives what recalculating once gives, and a document is left as it is exactly when it is already consistent |
| `ShiftModel.TipOrDefault` | server/models/Shift.js:18-27 | a tip field that is given keeps its value and one left out becomes 0 |
| `ShiftModel.Shift.constructor` | server/models/Shift.js:4-45 | a new document keeps the given user, day and hours, takes the tips or their default 0, has no calculated fields yet and records its creation time |
| `ShiftModel.Shift.Load` | server/routes/shifts.js:93-97 | a document read back from the store holds exactly the stored fields |
| `ShiftModel.Shift.Recalculate` | server/routes/shifts.js:101-104 | after the four assignments the calculated fields are those of `Derive` for the current raw fields and the rate, and no raw field changes |
| `ShiftModel.Shift.PreSave` | server/models/Shift.js:48-68 | with the owner found, the hook succeeds and the calculated fields are those of `Derive` at the owner's rate; without it, the hook fails with "User not found" and sets no calculated field |
| `ShiftStats.Finish` | server/routes/shifts.js:180-184 | combined tips are cash plus card totals, each average times the shift count gives its total, the overall rate is finite exactly when total hours are non-zero and then times the hours gives total income, after-tax income is 0.92 of total income, and nothing else changes |
| `ShiftStats.ComputeStats` | server/routes/shifts.js:146-185 | the count is the number of shifts, the four totals are the sums of the per-shift fields, the highest entries are the strict running maxima, combined tips are cash plus card, and after-tax income is 0.92 of income, for the empty list too |
| `ShiftStats.StatsOfEmpty` | server/routes/shifts.js:146-161 | with no shifts every count, sum, average and after-tax figure is 0 and both highest entries are amount 0 with no day |
| `ShiftStats.TotalPermutation` | server/routes/shifts.js:162-166 | every running sum is the same for any reordering of the shifts |
| `ShiftStats.HighestIsFirstMaximum` | server/routes/shifts.js:169-177 | the highest amount is at least 0 and every tip; it has a day exactly when some tip exceeds 0, and then the amount is reached by a shift whose day it is and before which every tip is strictly lower; with no day the amount is 0 |
| `ShiftStats.HighestAmountPermutation` | server/routes/shifts.js:169-177 | the highest cash or card amount is the same for any reordering of the shifts |
| `ShiftStats.StatsPermutation` | server/routes/shifts.js:162-184 | reordering the shifts changes no count, total, average, rate, after-tax figure or highest amount; only the day of a highest tip may change |
| `ShiftStats.TieGoesToFirst` | server/routes/shifts.js:169-177 | of two shifts with the same positive cash tip, or the same positive card tip, whichever comes first supplies the day, so the day depends on order |
| `ShiftStats.HighestWithoutTie` | server/routes/shifts.js:169-177 | when the highest tip of a kind is 0, or all shifts reaching that positive amount share one day, every reordering of the shifts gives the same highest amount and the same day |
| `ShiftStats.StatsPermutationWithoutTies` | server/routes/shifts.js:162-184 | when neither highest tip is tied between days at a positive amount, the whole statistics record is the same for every reordering of the shifts |
| `ShiftStats.WorkedExample` | server/routes/shifts.js:162-184 | 8 hours with tips 20 and 10 and 5 hours with tip 5 at 15 an hour give derived fields 30, 120, 150, 18.75 for the first shift and statistics 2 shifts, income 230, cash 25, card 10, hours 13, rate 230/13, highest cash 20 on the first day, after tax 211.6 |
| `ShiftRoutes.BuildShiftFields` | server/routes/shifts.js:74-81 | hours are set only when supplied and non-zero, so a supplied 0 is dropped; a tip supplied as 0 is still set; the day is set when given |
| `ShiftRoutes.SetOr` | server/routes/shifts.js:93-97 | under `$set` a field takes the new value when one is given and keeps the stored one otherwise |
| `ShiftRoutes.UpdateMergeRules` | server/routes/shifts.js:74-104 | after an update, owner and creation time are unchanged, the day and tips are the supplied ones or the stored ones, hours change only for a truthy value, and the calculated fields satisfy the four formulas over the merged raw fields |
| `ShiftRoutes.Authorize` | server/routes/shifts.js:84-91 | the request is "not found" exactly when no shift was found, "not authorized" exactly when it belongs to another user, and granted with that shift exactly when the caller owns it |
| `ShiftRoutes.Find` | server/routes/shifts.js:119 | the lookup finds a shift exactly when the id is stored, and then it is the stored one |
| `ShiftRoutes.ShiftStore.Create` | server/routes/shifts.js:44-59 | the new shift is stored with its calculated fields at the owner's rate when the owner exists; otherwise the request fails and nothing is stored |
| `ShiftRoutes.ShiftStore.Update` | server/routes/shifts.js:70-112 | a missing or foreign shift gives "not found" or "not authorized" and leaves the store unchanged; otherwise the merged, recalculated shift replaces the stored one, and with the owner missing the merged raw fields stay stored with stale calculated fields and the request fails |
| `ShiftRoutes.ShiftStore.Delete` | server/routes/shifts.js:117-135 | a missing or foreign shift gives "not found" or "not authorized" and leaves the store unchanged; otherwise exactly that shift is removed |

## Left out

- Floating point: values are exact reals. IEEE-754 rounding is not modelled. Neither is the difference between Infinity and NaN; both are `NonFinite`.
- The listing route (`GET /`, server/routes/shifts.js:14-22) and the database queries, sorting and id generation: their results are inputs.
- Date normalisation with `moment(...).startOf('day')`: days are opaque values that are already normalised.
- ShiftRoutes.BuildShiftFields: update bodies are modelled as JSON numbers. The update route has no validators, and a numeric string such as "0" for `hoursWorked` is truthy in the source, so there it overwrites the stored hours; the model has no such input.
- Request validation (`express-validator`) of the create route: raw values are numbers by their type. Non-numeric strings, `null` and `NaN` in a request body are not modelled, so a `null` tip is not represented.
- An empty-string date in an update body is falsy. It is the same as leaving the date out, which the model represents as `None`.
- The unused user lookup at the start of the statistics handler (server/routes/shifts.js:143) has no effect on the result and is left out.
- HTTP status codes, response bodies, logging and the async control flow. Every unexpected failure is the single response `ServerError`.
- Authentication (server/middleware/auth.js), the database connection (server/config/db.js) and the app wiring (server/server.js): the caller's user id is an input.
- ShiftRoutes.ShiftStore.Create: requires a fresh shift id, which the database supplies.
