# FitPlanner recommendation derivation, modelled in Dafny

FitPlanner is a fitness-planning web application. A user submits body metrics
and a goal. The server stores the profile. The client shows a personalised
workout and diet recommendation. This project models the logic behind that:

- `rounding.dfy`, module `JsMath`: JavaScript's `Math.round` on exact reals,
  `floor(x + 0.5)`, so half-way values go towards +infinity.
- `recommendations.dfy`, module `Recommendations`: `getWorkoutRecommendation`
  and `getDietRecommendation` of the personalised recommendations view. The
  workout side selects one of four static programs by body goal. The diet side
  computes a base calorie estimate from weight and gender. It then applies the
  goal's calorie, protein and fat factors, takes carbohydrate as the rounded
  residual, and gives each of four meals a fixed share of the calories. Goal and
  gender stay raw strings compared for equality, as in the source. Any goal
  other than the named ones takes the last branch.
- `users_route.dfy`, module `UsersRoute`: the `/api/users` route. The user
  table is a `map` from email, its unique key, to the stored record, held by the
  class `UserStore`. `Post` is the check-then-insert: a known email is rejected
  with status 400 and the table is unchanged. Otherwise one record is added and
  returned with the goal's four plan names. `Get` is the listing's projection.
  The id and creation time the datastore gives a new record are parameters of
  `Post`.

Two facts about the code that a reader may not expect:

- The server's workout name and description match the client's template for
  every goal. Its diet names match the client's only for `"maintain"`
  (`DietNamesAgreeOnlyForMaintain`).
- Every diet template has exactly four meals.

## Model

| member | source | states |
|---|---|---|
| `JsMath.JsRound` | app/components/PersonalizedRecommendations.tsx:153-156 | `Math.round(x)` is an integer r with r - 1/2 <= x < r + 1/2 |
| `JsMath.JsRoundUnique` | app/components/PersonalizedRecommendations.tsx:153-156 | any integer in that interval is the rounded value, so the interval defines `Math.round` |
| `JsMath.JsRoundOfInt` | app/components/PersonalizedRecommendations.tsx:153-156 | rounding an integer returns it |
| `JsMath.JsRoundHalfUp` | app/components/PersonalizedRecommendations.tsx:153-156 | half-way values round up, also below zero |
| `JsMath.JsRoundMonotonic` | app/components/PersonalizedRecommendations.tsx:153-156 | rounding preserves order |
| `Recommendations.WorkoutRecommendation` | app/components/PersonalizedRecommendations.tsx:14-138 | every selected program has exactly two workout blocks, each with at least one exercise |
| `Recommendations.WorkoutSelection` | app/components/PersonalizedRecommendations.tsx:17-137 | in both directions: "lose_weight" selects the Fat Loss Program, "build_muscle" the Muscle Building Program, "improve_fitness" the Overall Fitness Program, and every other string the Maintenance Program |
| `Recommendations.WorkoutFallback` | app/components/PersonalizedRecommendations.tsx:109-137 | an unrecognised goal gets exactly the template "maintain" gets |
| `Recommendations.WorkoutTemplatesDistinct` | app/components/PersonalizedRecommendations.tsx:14-137 | two different templates differ in name, description and each of their blocks |
| `Recommendations.DietBranchFor` | app/components/PersonalizedRecommendations.tsx:152-290 | every diet branch has four meals |
| `Recommendations.Carbs` | app/components/PersonalizedRecommendations.tsx:156 | 4 x carbs lies within 2 kcal of calories - 4 x protein - 9 x fat; it is not clamped |
| `Recommendations.PortionMeals` | app/components/PersonalizedRecommendations.tsx:163-192 | each meal keeps its template name and description and gets `Math.round(calories x fraction)` kcal |
| `Recommendations.DietRecommendation` | app/components/PersonalizedRecommendations.tsx:141-299 | every plan has four meals and its carbohydrate grams account for the residual calories to within 2 kcal |
| `Recommendations.BaseCaloriesByGender` | app/components/PersonalizedRecommendations.tsx:143-150 | base calories are weight x 24 for gender exactly "male" and weight x 22 for any other value |
| `Recommendations.LoseWeightDiet` | app/components/PersonalizedRecommendations.tsx:152-192 | "lose_weight": calories round(base x 0.8), protein round(weight x 2), fat round(calories x 0.25 / 9), carbs the rounded residual / 4, meals 25/35/30/10 % each rounded |
| `Recommendations.BuildMuscleDiet` | app/components/PersonalizedRecommendations.tsx:201-241 | "build_muscle": calories round(base x 1.1), protein round(weight x 2.2), fat round(calories x 0.25 / 9), carbs the rounded residual / 4, meals 25/30/15/30 % each rounded |
| `Recommendations.DefaultDiet` | app/components/PersonalizedRecommendations.tsx:250-290 | every other goal: calories round(base), protein round(weight x 1.6), fat round(calories x 0.3 / 9), carbs the rounded residual / 4, meals 25/35/30/10 %; named "Maintenance Diet Plan" if the goal is "maintain", else "Balanced Fitness Diet Plan" |
| `Recommendations.MaintenanceNameOnlyForMaintain` | app/components/PersonalizedRecommendations.tsx:257 | over all goals, the plan is called "Maintenance Diet Plan" if and only if the goal is exactly "maintain" |
| `Recommendations.DietFallback` | app/components/PersonalizedRecommendations.tsx:250-290 | "improve_fitness" and unknown goals get the same calories, macros and meals as "maintain" |
| `Recommendations.MealFractionsSumToOne` | app/components/PersonalizedRecommendations.tsx:163-290 | in every diet template the meal fractions add up to exactly 1 |
| `Recommendations.PortionRoundingBound` | app/components/PersonalizedRecommendations.tsx:167-188 | rounding n meal portions separately moves their total at most n/2 away from the exact share |
| `Recommendations.MealSplitWithinTwo` | app/components/PersonalizedRecommendations.tsx:163-290 | for every input, the rounded meal calories add up to within 2 kcal of the daily calories |
| `Recommendations.CarbsNonNegative` | app/components/PersonalizedRecommendations.tsx:143-254 | for any positive weight the carbohydrate grams are not negative, for every goal and gender; negative carbohydrate needs a weight of zero or below |
| `Recommendations.ResidualAtLeastMinusTwo` | app/components/PersonalizedRecommendations.tsx:153-156 | with at least 8.8 kcal per gram of protein and fat rounded from 25% or 30% of the calories, the calories left for carbohydrate are at least -2, which rounds to 0 g |
| `Recommendations.CarbsUnclamped` | app/components/PersonalizedRecommendations.tsx:250-254 | a negative weight of -10 kg ("maintain", not male) gives -16 g protein, -7 g fat and -23 g carbohydrate: nothing clamps them |
| `Recommendations.ExampleMaleLoseWeight` | app/components/PersonalizedRecommendations.tsx:146-188 | male, 80 kg, "lose_weight": 1536 kcal, 160 g protein, 43 g fat, 127 g carbs; meals 384/538/461/154 kcal, one more than the daily figure |
| `Recommendations.ExampleFemaleBuildMuscle` | app/components/PersonalizedRecommendations.tsx:146-205 | female, 60 kg, "build_muscle": 1452 kcal, 132 g protein, 40 g fat, 141 g carbs |
| `UsersRoute.PlanNamesFor` | app/api/users/route.ts:64-89 | the difficulty is always beginner, intermediate or advanced |
| `UsersRoute.PlanNamesTable` | app/api/users/route.ts:69-89 | the four rows of the goal-to-names table, with unknown goals on the maintenance row; "beginner" exactly for goals other than "lose_weight" and "build_muscle"; "Maintenance Diet Plan" exactly for goals outside the three named ones |
| `UsersRoute.ServerWorkoutMatchesClient` | app/api/users/route.ts:69-89 | for every goal, unknown ones included, the server's workout name and description equal the client template's |
| `UsersRoute.DietNamesAgreeOnlyForMaintain` | app/api/users/route.ts:73-88 | the server's diet name equals the client plan's name if and only if the goal is "maintain" |
| `UsersRoute.UserStore.Post` | app/api/users/route.ts:36-98 | known email: status 400 "User already exists" and the table unchanged; new email: exactly one record, keyed by that email and holding the submitted fields, is added, nothing else changes, and the answer is that record with the goal's plan names; records stay keyed by their own email |
| `UsersRoute.DuplicateSubmission` | app/api/users/route.ts:36-47 | two submissions with one email: the first is created, the second is answered 400 "User already exists" and the table holds the first record only |
| `UsersRoute.UserStore.Get` | app/api/users/route.ts:7-18 | the listing holds the projection of every stored record to id, email, name, bodyGoal, timeframe and createdAt, and nothing else |

## Left out

- The rendering of the recommendations view, its workout/diet tab state and its
  links. They are presentation.
- Exercise sets, repetitions and rest times, the programs' notes, the meals'
  preparation times and ingredients, and the diets' tips. These are literal
  strings with no logic. Programs keep their name, description, frequency,
  blocks and exercise names; meals keep name, description and calorie share.
- Floating-point arithmetic. Weights and factors are exact reals. For instance
  1320 x 1.1 is exactly 1452 here, whereas the double-precision product carries
  a representation error.
- Non-string or missing goal and gender values (`undefined`, numbers), and
  `NaN` weights. Goal and gender are strings; any string not singled out takes
  the default branch, as in the source.
- The datastore's own failures and the generic status 500 answers of both
  handlers. The datastore, the request parsing and the JSON responses are
  foreign library calls. The store is the map in `UserStore`.
- The uniqueness of record ids. `Post` takes the id the datastore assigns as a
  parameter and does not require it to differ from the ids already stored; no
  property of the model depends on ids.
- The order of the listing. `Get` returns a set of rows, because the source
  requests no order.
- Concurrent POSTs with the same email. The source checks and then inserts
  without a transaction; the model runs one request at a time.
- The workout-plan and diet-plan routes, the profile form pages, the plan
  listing pages and the static layout. They fetch, store or render data without
  logic of their own, and are not part of this model.
