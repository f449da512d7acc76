/** The client-side recommendation deriver of the personalised recommendations
    view: a workout template selected by body goal, and a diet plan whose
    calorie and macro-nutrient figures are computed from goal, gender and weight.
    Goal and gender are the raw strings of the stored profile; nothing validates
    them, so every comparison below is an exact string comparison and every
    value not singled out takes the last branch. */
module Recommendations {
  import opened JsMath

  const LoseWeightGoal: string := "lose_weight"
  const BuildMuscleGoal: string := "build_muscle"
  const ImproveFitnessGoal: string := "improve_fitness"
  const MaintainGoal: string := "maintain"
  const MaleGender: string := "male"

  // ---------------------------------------------------------------------------
  // Workout templates
  // ---------------------------------------------------------------------------

  /** A training session of a program; exercises are given by name only. */
  datatype WorkoutBlock = WorkoutBlock(name: string, description: string, exercises: seq<string>)

  datatype WorkoutTemplate = WorkoutTemplate(
    name: string,
    description: string,
    workouts: seq<WorkoutBlock>,
    frequency: string)

  const FatLossProgram: WorkoutTemplate := WorkoutTemplate(
    "Fat Loss Program",
    "A balanced program focused on calorie burning and muscle maintenance.",
    [ WorkoutBlock("Cardio + HIIT",
        "High-intensity interval training combined with moderate cardio",
        ["Jumping Jacks", "Mountain Climbers", "Burpees", "Jogging/Running"]),
      WorkoutBlock("Full Body Strength",
        "Compound movements to maintain muscle while burning calories",
        ["Squats", "Push-ups", "Dumbbell Rows", "Lunges"]) ],
    "4-5 days per week")

  const MuscleBuildingProgram: WorkoutTemplate := WorkoutTemplate(
    "Muscle Building Program",
    "Progressive overload training split to maximize muscle growth.",
    [ WorkoutBlock("Upper Body",
        "Focus on chest, back, shoulders and arms",
        ["Bench Press", "Rows", "Overhead Press", "Bicep Curls", "Tricep Extensions"]),
      WorkoutBlock("Lower Body",
        "Focus on quadriceps, hamstrings, glutes and calves",
        ["Squats", "Romanian Deadlifts", "Leg Press", "Calf Raises"]) ],
    "4 days per week (2 upper, 2 lower)")

  const OverallFitnessProgram: WorkoutTemplate := WorkoutTemplate(
    "Overall Fitness Program",
    "Balanced approach to improve strength, endurance, and mobility.",
    [ WorkoutBlock("Strength Circuit",
        "Full-body circuit to build functional strength",
        ["Goblet Squats", "Push-ups", "Dumbbell Rows", "Plank", "Rest", "Repeat circuit 2-3 times"]),
      WorkoutBlock("Cardio & Mobility",
        "Improve cardiovascular fitness and joint mobility",
        ["Light Jogging/Cycling", "Dynamic Stretching", "Yoga Flow"]) ],
    "3-4 days per week")

  const MaintenanceProgram: WorkoutTemplate := WorkoutTemplate(
    "Maintenance Program",
    "Balanced routine to maintain current physique and fitness levels.",
    [ WorkoutBlock("Full Body Workout",
        "Comprehensive workout targeting all major muscle groups",
        ["Squats", "Push-ups/Bench Press", "Rows", "Lunges", "Planks"]),
      WorkoutBlock("Cardio Session",
        "Moderate intensity cardio to maintain heart health",
        ["Brisk Walking/Jogging", "Or Cycling/Swimming"]) ],
    "3 days per week")

  /** `getWorkoutRecommendation`: the template for the goal; gender is read by
      the source but never used, so it is not a parameter here. Every template
      has two workout blocks, each with at least one exercise. */
  function WorkoutRecommendation(bodyGoal: string): (t: WorkoutTemplate)
    ensures |t.workouts| == 2
    ensures forall i :: 0 <= i < |t.workouts| ==> |t.workouts[i].exercises| > 0
  {
    if bodyGoal == LoseWeightGoal then FatLossProgram
    else if bodyGoal == BuildMuscleGoal then MuscleBuildingProgram
    else if bodyGoal == ImproveFitnessGoal then OverallFitnessProgram
    else MaintenanceProgram
  }

  /** Each program name is chosen by exactly one goal class: the three named
      goals each select their own program, and every other string, "maintain"
      included, selects the maintenance program. */
  lemma WorkoutSelection(bodyGoal: string)
    ensures WorkoutRecommendation(bodyGoal).name == "Fat Loss Program" <==> bodyGoal == LoseWeightGoal
    ensures WorkoutRecommendation(bodyGoal).name == "Muscle Building Program" <==> bodyGoal == BuildMuscleGoal
    ensures WorkoutRecommendation(bodyGoal).name == "Overall Fitness Program" <==> bodyGoal == ImproveFitnessGoal
    ensures WorkoutRecommendation(bodyGoal).name == "Maintenance Program"
            <==> bodyGoal !in {LoseWeightGoal, BuildMuscleGoal, ImproveFitnessGoal}
  {
  }

  /** An unrecognised goal is not an error: it gets exactly what "maintain" gets. */
  lemma WorkoutFallback(bodyGoal: string)
    requires bodyGoal !in {LoseWeightGoal, BuildMuscleGoal, ImproveFitnessGoal}
    ensures WorkoutRecommendation(bodyGoal) == WorkoutRecommendation(MaintainGoal)
  {
  }

  /** No cross-contamination: goals from different branches get templates that
      differ in name, description and every block. */
  lemma WorkoutTemplatesDistinct(g1: string, g2: string)
    requires WorkoutRecommendation(g1) != WorkoutRecommendation(g2)
    ensures WorkoutRecommendation(g1).name != WorkoutRecommendation(g2).name
    ensures WorkoutRecommendation(g1).description != WorkoutRecommendation(g2).description
    ensures forall i :: 0 <= i < 2 ==>
              WorkoutRecommendation(g1).workouts[i] != WorkoutRecommendation(g2).workouts[i]
  {
  }

  // ---------------------------------------------------------------------------
  // Diet plans
  // ---------------------------------------------------------------------------

  /** Grams of protein, fat and carbohydrate per day. */
  datatype Macros = Macros(protein: int, fat: int, carbs: int)

  /** A meal of a diet template and the fraction of the daily calories it gets. */
  datatype MealShare = MealShare(name: string, description: string, fraction: real)

  /** A meal of a computed plan. */
  datatype Meal = Meal(name: string, description: string, calories: int)

  datatype DietPlan = DietPlan(
    name: string,
    description: string,
    calories: int,
    macros: Macros,
    meals: seq<Meal>)

  /** The constants of one branch of `getDietRecommendation`. */
  datatype DietBranch = DietBranch(
    name: string,
    description: string,
    calorieFactor: real,   // multiplier applied to the base calories
    proteinPerKg: real,    // grams of protein per kilogram of weight
    fatShare: real,        // fraction of the calories that comes from fat
    meals: seq<MealShare>)

  /** Energy per gram, in kcal. */
  const ProteinKcalPerGram: int := 4
  const CarbKcalPerGram: int := 4
  const FatKcalPerGram: int := 9

  const FatLossMeals: seq<MealShare> := [
    MealShare("Protein-Packed Breakfast", "Greek yogurt with berries and a sprinkle of nuts", 0.25),
    MealShare("Lean Lunch", "Grilled chicken salad with mixed greens", 0.35),
    MealShare("Balanced Dinner", "Baked fish with steamed vegetables", 0.3),
    MealShare("Smart Snack", "Protein shake with a piece of fruit", 0.1)]

  const MuscleBuildingMeals: seq<MealShare> := [
    MealShare("Protein-Rich Breakfast", "Scrambled eggs with toast and avocado", 0.25),
    MealShare("Protein & Carb Lunch", "Chicken and rice bowl with vegetables", 0.3),
    MealShare("Post-Workout Shake", "Protein shake with banana and peanut butter", 0.15),
    MealShare("Hearty Dinner", "Lean steak with sweet potato and greens", 0.3)]

  const BalancedMeals: seq<MealShare> := [
    MealShare("Balanced Breakfast", "Oatmeal with fruit, nuts, and a boiled egg", 0.25),
    MealShare("Wholesome Lunch", "Quinoa bowl with vegetables and lean protein", 0.35),
    MealShare("Balanced Dinner", "Stir-fry with lean protein and vegetables", 0.3),
    MealShare("Healthy Snack", "Greek yogurt with honey or a handful of nuts", 0.1)]

  /** The branch of `getDietRecommendation` taken for a goal: "lose_weight" and
      "build_muscle" have their own; every other string shares the last one,
      whose plan name alone depends on whether the goal is exactly "maintain". */
  function DietBranchFor(bodyGoal: string): (b: DietBranch)
    ensures |b.meals| == 4
  {
    if bodyGoal == LoseWeightGoal then
      DietBranch("Fat Loss Diet Plan",
        "Calorie-controlled diet with high protein to preserve muscle while losing fat.",
        0.8, 2.0, 0.25, FatLossMeals)
    else if bodyGoal == BuildMuscleGoal then
      DietBranch("Muscle Building Diet Plan",
        "Higher calorie diet with adequate protein to support muscle growth.",
        1.1, 2.2, 0.25, MuscleBuildingMeals)
    else
      DietBranch(if bodyGoal == MaintainGoal then "Maintenance Diet Plan" else "Balanced Fitness Diet Plan",
        "Well-balanced nutrition to support overall health and activity levels.",
        1.0, 1.6, 0.3, BalancedMeals)
  }

  /** The rough daily energy estimate, before the goal's adjustment. */
  function BaseCalories(gender: string, weight: real): real
  {
    if gender == MaleGender then weight * 24.0 else weight * 22.0
  }

  /** Carbohydrate grams: the calories left after protein and fat, at 4 kcal/g,
      rounded. The rounded grams account for the residual to within 2 kcal, and
      nothing clamps them at zero. */
  function Carbs(calories: int, protein: int, fat: int): (carbs: int)
    ensures var residual := calories - ProteinKcalPerGram * protein - FatKcalPerGram * fat;
            -2 < CarbKcalPerGram * carbs - residual <= 2
  {
    JsRound((calories - protein * ProteinKcalPerGram - fat * FatKcalPerGram) as real / CarbKcalPerGram as real)
  }

  /** The template's meals, each given `Math.round(calories * fraction)` kcal. */
  function PortionMeals(shares: seq<MealShare>, calories: int): (meals: seq<Meal>)
    ensures |meals| == |shares|
    ensures forall i :: 0 <= i < |shares| ==>
              && meals[i].name == shares[i].name
              && meals[i].description == shares[i].description
              && meals[i].calories == JsRound(calories as real * shares[i].fraction)
  {
    if shares == [] then []
    else
      [Meal(shares[0].name, shares[0].description, JsRound(calories as real * shares[0].fraction))]
      + PortionMeals(shares[1..], calories)
  }

  /** `getDietRecommendation`. */
  function DietRecommendation(bodyGoal: string, gender: string, weight: real): (d: DietPlan)
    ensures |d.meals| == 4
    ensures var residual := d.calories - ProteinKcalPerGram * d.macros.protein - FatKcalPerGram * d.macros.fat;
            -2 < CarbKcalPerGram * d.macros.carbs - residual <= 2
  {
    var branch := DietBranchFor(bodyGoal);
    var calories := JsRound(BaseCalories(gender, weight) * branch.calorieFactor);
    var protein := JsRound(weight * branch.proteinPerKg);
    var fat := JsRound(calories as real * branch.fatShare / FatKcalPerGram as real);
    DietPlan(branch.name, branch.description, calories,
             Macros(protein, fat, Carbs(calories, protein, fat)),
             PortionMeals(branch.meals, calories))
  }

  function SumFractions(shares: seq<MealShare>): real
  {
    if shares == [] then 0.0 else shares[0].fraction + SumFractions(shares[1..])
  }

  function TotalCalories(meals: seq<Meal>): int
  {
    if meals == [] then 0 else meals[0].calories + TotalCalories(meals[1..])
  }

  // ---------------------------------------------------------------------------
  // Properties of the diet derivation
  // ---------------------------------------------------------------------------

  /** The base estimate is 24 kcal per kg for gender exactly "male" and 22 kcal
      per kg for any other gender value. */
  lemma BaseCaloriesByGender(gender: string, weight: real)
    ensures gender == MaleGender ==> BaseCalories(gender, weight) == 24.0 * weight
    ensures gender != MaleGender ==> BaseCalories(gender, weight) == 22.0 * weight
  {
  }

  /** The "lose_weight" plan: a 20% deficit, 2 g/kg protein, a quarter of the
      calories from fat, and meals of 25/35/30/10 % of the calories. */
  lemma LoseWeightDiet(gender: string, weight: real)
    ensures var d := DietRecommendation(LoseWeightGoal, gender, weight);
            && d.name == "Fat Loss Diet Plan"
            && d.calories == JsRound(BaseCalories(gender, weight) * 0.8)
            && d.macros.protein == JsRound(weight * 2.0)
            && d.macros.fat == JsRound(d.calories as real * 0.25 / 9.0)
            && d.macros.carbs == JsRound((d.calories - d.macros.protein * 4 - d.macros.fat * 9) as real / 4.0)
            && MealCalories(d) == [JsRound(d.calories as real * 0.25), JsRound(d.calories as real * 0.35),
                                   JsRound(d.calories as real * 0.3), JsRound(d.calories as real * 0.1)]
  {
  }

  /** The "build_muscle" plan: a 10% surplus, 2.2 g/kg protein, a quarter of the
      calories from fat, and meals of 25/30/15/30 % of the calories. */
  lemma BuildMuscleDiet(gender: string, weight: real)
    ensures var d := DietRecommendation(BuildMuscleGoal, gender, weight);
            && d.name == "Muscle Building Diet Plan"
            && d.calories == JsRound(BaseCalories(gender, weight) * 1.1)
            && d.macros.protein == JsRound(weight * 2.2)
            && d.macros.fat == JsRound(d.calories as real * 0.25 / 9.0)
            && d.macros.carbs == JsRound((d.calories - d.macros.protein * 4 - d.macros.fat * 9) as real / 4.0)
            && MealCalories(d) == [JsRound(d.calories as real * 0.25), JsRound(d.calories as real * 0.3),
                                   JsRound(d.calories as real * 0.15), JsRound(d.calories as real * 0.3)]
  {
  }

  /** Every other goal, known or not: the base calories unchanged, 1.6 g/kg
      protein, 30% of the calories from fat, meals of 25/35/30/10 %; the plan is
      called "Maintenance Diet Plan" exactly when the goal is "maintain". */
  lemma DefaultDiet(bodyGoal: string, gender: string, weight: real)
    requires bodyGoal != LoseWeightGoal && bodyGoal != BuildMuscleGoal
    ensures var d := DietRecommendation(bodyGoal, gender, weight);
            && d.name == (if bodyGoal == MaintainGoal then "Maintenance Diet Plan" else "Balanced Fitness Diet Plan")
            && d.calories == JsRound(BaseCalories(gender, weight))
            && d.macros.protein == JsRound(weight * 1.6)
            && d.macros.fat == JsRound(d.calories as real * 0.3 / 9.0)
            && d.macros.carbs == JsRound((d.calories - d.macros.protein * 4 - d.macros.fat * 9) as real / 4.0)
            && MealCalories(d) == [JsRound(d.calories as real * 0.25), JsRound(d.calories as real * 0.35),
                                   JsRound(d.calories as real * 0.3), JsRound(d.calories as real * 0.1)]
  {
    assert BaseCalories(gender, weight) * 1.0 == BaseCalories(gender, weight);
  }

  /** The calories of a plan's meals, in order. */
  function MealCalories(d: DietPlan): (cs: seq<int>)
    ensures |cs| == |d.meals|
  {
    seq(|d.meals|, i requires 0 <= i < |d.meals| => d.meals[i].calories)
  }

  /** Over every goal, the plan is named "Maintenance Diet Plan" if and only if
      the goal is exactly "maintain": "improve_fitness" and unknown goals get the
      same numbers but the name "Balanced Fitness Diet Plan". */
  lemma MaintenanceNameOnlyForMaintain(bodyGoal: string, gender: string, weight: real)
    ensures DietRecommendation(bodyGoal, gender, weight).name == "Maintenance Diet Plan"
            <==> bodyGoal == MaintainGoal
  {
  }

  /** Goals other than "lose_weight" and "build_muscle" get the same figures
      and meals as "maintain"; only the plan name can differ. */
  lemma DietFallback(bodyGoal: string, gender: string, weight: real)
    requires bodyGoal != LoseWeightGoal && bodyGoal != BuildMuscleGoal
    ensures var d := DietRecommendation(bodyGoal, gender, weight);
            var m := DietRecommendation(MaintainGoal, gender, weight);
            d.calories == m.calories && d.macros == m.macros && d.meals == m.meals
  {
  }

  /** In every template the meal fractions add up to exactly one. */
  lemma MealFractionsSumToOne(bodyGoal: string)
    ensures SumFractions(DietBranchFor(bodyGoal).meals) == 1.0
  {
  }

  /** Rounding each of n portions on its own moves their total by at most n/2
      from the exact share of the calories. */
  lemma {:induction false} PortionRoundingBound(shares: seq<MealShare>, calories: int)
    ensures var total := TotalCalories(PortionMeals(shares, calories)) as real;
            var exact := calories as real * SumFractions(shares);
            exact - 0.5 * |shares| as real <= total <= exact + 0.5 * |shares| as real
  {
    if shares != [] {
      var c := calories as real;
      var rest := shares[1..];
      PortionRoundingBound(rest, calories);
      assert c * SumFractions(shares) == c * shares[0].fraction + c * SumFractions(rest);
    }
  }

  /** The rounded meal calories of any plan add up to within 2 kcal of the
      plan's daily calories. */
  lemma MealSplitWithinTwo(bodyGoal: string, gender: string, weight: real)
    ensures var d := DietRecommendation(bodyGoal, gender, weight);
            -2 <= TotalCalories(d.meals) - d.calories <= 2
  {
    var d := DietRecommendation(bodyGoal, gender, weight);
    var shares := DietBranchFor(bodyGoal).meals;
    assert d.meals == PortionMeals(shares, d.calories);
    MealFractionsSumToOne(bodyGoal);
    PortionRoundingBound(shares, d.calories);
    var total := TotalCalories(d.meals) as real;
    assert d.calories as real - 2.0 <= total <= d.calories as real + 2.0;
  }

  /** For any positive weight the carbohydrate figure is not negative; a
      negative figure needs a weight of zero or below. */
  lemma CarbsNonNegative(bodyGoal: string, gender: string, weight: real)
    requires weight > 0.0
    ensures DietRecommendation(bodyGoal, gender, weight).macros.carbs >= 0
  {
    var d := DietRecommendation(bodyGoal, gender, weight);
    var branch := DietBranchFor(bodyGoal);
    var base := BaseCalories(gender, weight);
    var cal, protein := d.calories as real, d.macros.protein as real;
    assert base >= 22.0 * weight;
    // every branch grants at least 8.8 kcal per gram of protein
    if bodyGoal == LoseWeightGoal {
      assert cal >= 17.6 * weight - 0.5 && protein <= 2.0 * weight + 0.5;
    } else if bodyGoal == BuildMuscleGoal {
      assert cal >= 24.2 * weight - 0.5 && protein <= 2.2 * weight + 0.5;
    } else {
      assert cal >= 22.0 * weight - 0.5 && protein <= 1.6 * weight + 0.5;
    }
    ResidualAtLeastMinusTwo(d.calories, d.macros.protein, d.macros.fat, branch.fatShare);
  }

  /** The arithmetic behind `CarbsNonNegative`: with at least 8.8 kcal per
      gram of protein and fat rounded from a quarter or 30% of the calories,
      what is left for carbohydrate is at least -2 kcal, which rounds to 0 g. */
  lemma ResidualAtLeastMinusTwo(calories: int, protein: int, fat: int, fatShare: real)
    requires fatShare == 0.25 || fatShare == 0.3
    requires calories >= 0 && protein >= 0
    requires protein >= 1 ==> calories as real >= 8.8 * (protein as real - 0.5) - 0.5
    requires fat as real - 0.5 <= calories as real * fatShare / 9.0
    ensures calories - 4 * protein - 9 * fat >= -2
  {
    if fat >= 1 {
      assert calories >= 15;
    }
    if protein == 1 {
      assert calories >= 4;
    } else if protein == 2 {
      assert calories >= 13;
    }
  }

  /** Nothing clamps the carbohydrate figure: an unvalidated negative weight
      yields negative grams. */
  lemma CarbsUnclamped()
    ensures DietRecommendation(MaintainGoal, "female", -10.0).macros == Macros(-16, -7, -23)
  {
    JsRoundUnique(-220.0, -220);
    JsRoundUnique(-10.0 * 1.6, -16);
    JsRoundUnique(-220.0 * 0.3 / 9.0, -7);
    JsRoundUnique((-220 + 64 + 63) as real / 4.0, -23);
  }

  /** A man of 80 kg who wants to lose weight: 1536 kcal, 160 g protein, 43 g
      fat, 127 g carbohydrate, and meals of 384/538/461/154 kcal, which add up
      to one more than the daily figure. */
  lemma ExampleMaleLoseWeight()
    ensures var d := DietRecommendation(LoseWeightGoal, MaleGender, 80.0);
            && d.calories == 1536
            && d.macros == Macros(160, 43, 127)
            && MealCalories(d) == [384, 538, 461, 154]
            && TotalCalories(d.meals) == d.calories + 1
  {
    JsRoundUnique(1920.0 * 0.8, 1536);
    JsRoundUnique(80.0 * 2.0, 160);
    JsRoundUnique(1536.0 * 0.25 / 9.0, 43);
    JsRoundUnique(509.0 / 4.0, 127);
    JsRoundUnique(1536.0 * 0.25, 384);
    JsRoundUnique(1536.0 * 0.35, 538);
    JsRoundUnique(1536.0 * 0.3, 461);
    JsRoundUnique(1536.0 * 0.1, 154);
  }

  /** A woman of 60 kg who wants to build muscle: 1452 kcal, 132 g protein,
      40 g fat, 141 g carbohydrate. */
  lemma ExampleFemaleBuildMuscle()
    ensures var d := DietRecommendation(BuildMuscleGoal, "female", 60.0);
            d.calories == 1452 && d.macros == Macros(132, 40, 141)
  {
    JsRoundUnique(1320.0 * 1.1, 1452);
    JsRoundUnique(60.0 * 2.2, 132);
    JsRoundUnique(1452.0 * 0.25 / 9.0, 40);
    JsRoundUnique(564.0 / 4.0, 141);
  }
}
