/** The `/api/users` route: profile creation with a duplicate-email check, the
    plan names the server derives for a new profile, and the listing of stored
    profiles. The user table of the datastore is a map from email (its unique
    key) to the stored record; the identifier and creation time the datastore
    assigns to a new record are parameters. */
module UsersRoute {
  import opened Recommendations

  /** The JSON body of a profile submission. */
  datatype ProfileInput = ProfileInput(
    email: string,
    name: string,
    height: real,
    weight: real,
    age: int,
    gender: string,
    bodyGoal: string,
    timeframe: int)

  /** A stored user record. */
  datatype User = User(
    id: int,
    email: string,
    name: string,
    height: real,
    weight: real,
    age: int,
    gender: string,
    bodyGoal: string,
    timeframe: int,
    createdAt: int)

  /** The columns the listing selects. */
  datatype UserSummary = UserSummary(
    id: int,
    email: string,
    name: string,
    bodyGoal: string,
    timeframe: int,
    createdAt: int)

  /** The four names the server adds to a created profile. */
  datatype PlanNames = PlanNames(
    workoutPlanName: string,
    workoutPlanDescription: string,
    workoutDifficulty: string,
    dietPlanName: string)

  /** What POST answers (the datastore's own failures, answered with status
      500, are not modelled). */
  datatype PostResponse =
    | Created(user: User, plan: PlanNames)
    | Rejected(status: int, error: string)

  const DuplicateStatus: int := 400
  const DuplicateError: string := "User already exists"

  /** The record the datastore creates from a submission. */
  function NewUser(input: ProfileInput, id: int, createdAt: int): User
  {
    User(id, input.email, input.name, input.height, input.weight, input.age,
         input.gender, input.bodyGoal, input.timeframe, createdAt)
  }

  /** The listing's projection of a record. */
  function Summary(u: User): UserSummary
  {
    UserSummary(u.id, u.email, u.name, u.bodyGoal, u.timeframe, u.createdAt)
  }

  /** The goal-to-names mapping of POST; unknown goals fall through to the
      maintenance row. */
  function PlanNamesFor(bodyGoal: string): (p: PlanNames)
    ensures p.workoutDifficulty in {"beginner", "intermediate", "advanced"}
  {
    if bodyGoal == LoseWeightGoal then
      PlanNames("Fat Loss Program",
        "A balanced program focused on calorie burning and muscle maintenance.",
        "intermediate", "Calorie Deficit Diet Plan")
    else if bodyGoal == BuildMuscleGoal then
      PlanNames("Muscle Building Program",
        "Progressive overload training split to maximize muscle growth.",
        "advanced", "High Protein Diet Plan")
    else if bodyGoal == ImproveFitnessGoal then
      PlanNames("Overall Fitness Program",
        "Balanced approach to improve strength, endurance, and mobility.",
        "beginner", "Balanced Nutrition Plan")
    else
      PlanNames("Maintenance Program",
        "Balanced routine to maintain current physique and fitness levels.",
        "beginner", "Maintenance Diet Plan")
  }

  /** The mapping as a table: each row's names for its goal, and the
      difficulty and diet name tell the goal classes apart. */
  lemma PlanNamesTable(bodyGoal: string)
    ensures bodyGoal == LoseWeightGoal ==> PlanNamesFor(bodyGoal) == PlanNames("Fat Loss Program",
              "A balanced program focused on calorie burning and muscle maintenance.",
              "intermediate", "Calorie Deficit Diet Plan")
    ensures bodyGoal == BuildMuscleGoal ==> PlanNamesFor(bodyGoal) == PlanNames("Muscle Building Program",
              "Progressive overload training split to maximize muscle growth.",
              "advanced", "High Protein Diet Plan")
    ensures bodyGoal == ImproveFitnessGoal ==> PlanNamesFor(bodyGoal) == PlanNames("Overall Fitness Program",
              "Balanced approach to improve strength, endurance, and mobility.",
              "beginner", "Balanced Nutrition Plan")
    ensures bodyGoal != LoseWeightGoal && bodyGoal != BuildMuscleGoal && bodyGoal != ImproveFitnessGoal
            ==> PlanNamesFor(bodyGoal) == PlanNames("Maintenance Program",
              "Balanced routine to maintain current physique and fitness levels.",
              "beginner", "Maintenance Diet Plan")
    ensures PlanNamesFor(bodyGoal).workoutDifficulty == "beginner"
            <==> bodyGoal != LoseWeightGoal && bodyGoal != BuildMuscleGoal
    ensures PlanNamesFor(bodyGoal).dietPlanName == "Maintenance Diet Plan"
            <==> bodyGoal != LoseWeightGoal && bodyGoal != BuildMuscleGoal && bodyGoal != ImproveFitnessGoal
  {
    var p := PlanNamesFor(bodyGoal);
    if bodyGoal == LoseWeightGoal {
      assert p.workoutDifficulty[0] != "beginner"[0];
      assert p.dietPlanName[0] != "Maintenance Diet Plan"[0];
    } else if bodyGoal == BuildMuscleGoal {
      assert p.workoutDifficulty[0] != "beginner"[0];
      assert p.dietPlanName[0] != "Maintenance Diet Plan"[0];
    } else if bodyGoal == ImproveFitnessGoal {
      assert p.dietPlanName[0] != "Maintenance Diet Plan"[0];
    }
  }

  /** For every goal, unknown ones included, the server names the same workout
      program, with the same description, as the client-side deriver selects. */
  lemma ServerWorkoutMatchesClient(bodyGoal: string)
    ensures PlanNamesFor(bodyGoal).workoutPlanName == WorkoutRecommendation(bodyGoal).name
    ensures PlanNamesFor(bodyGoal).workoutPlanDescription == WorkoutRecommendation(bodyGoal).description
  {
  }

  /** The diet names do not follow the client: they agree only for "maintain". */
  lemma DietNamesAgreeOnlyForMaintain(bodyGoal: string, gender: string, weight: real)
    ensures PlanNamesFor(bodyGoal).dietPlanName == DietRecommendation(bodyGoal, gender, weight).name
            <==> bodyGoal == MaintainGoal
  {
    var client := DietRecommendation(bodyGoal, gender, weight).name;
    if bodyGoal == LoseWeightGoal {
      assert client == "Fat Loss Diet Plan";
    } else if bodyGoal == BuildMuscleGoal {
      assert client == "Muscle Building Diet Plan";
    } else if bodyGoal == MaintainGoal {
      assert client == "Maintenance Diet Plan";
    } else {
      assert client == "Balanced Fitness Diet Plan";
    }
  }

  /** The user table. */
  class UserStore {
    var users: map<string, User>

    /** Every record is stored under its own email. */
    ghost predicate Valid()
      reads this
    {
      forall e :: e in users ==> users[e].email == e
    }

    constructor ()
      ensures Valid() && users == map[]
    {
      users := map[];
    }

    /** POST: a submission whose email is already stored is rejected with
        status 400 and the table is left as it was; otherwise exactly one
        record, keyed by the new email and holding the submitted fields, is
        added, and the answer is that record with the goal's plan names. */
    method Post(input: ProfileInput, id: int, createdAt: int) returns (response: PostResponse)
      requires Valid()
      modifies this
      ensures Valid()
      ensures input.email in old(users) ==>
                && response == Rejected(DuplicateStatus, DuplicateError)
                && users == old(users)
      ensures input.email !in old(users) ==>
                && users == old(users)[input.email := NewUser(input, id, createdAt)]
                && |users| == |old(users)| + 1
                && response == Created(NewUser(input, id, createdAt), PlanNamesFor(input.bodyGoal))
    {
      if input.email in users {
        return Rejected(DuplicateStatus, DuplicateError);
      }
      var user := NewUser(input, id, createdAt);
      users := users[input.email := user];
      response := Created(user, PlanNamesFor(input.bodyGoal));
    }

    /** GET: every stored record, projected to id, email, name, goal,
        timeframe and creation time, and nothing else; in a valid table each
        row is the projection of the record stored under its email, so no two
        rows share an email. */
    function Get(): (listed: set<UserSummary>)
      reads this
      ensures forall e :: e in users ==> Summary(users[e]) in listed
      ensures forall s :: s in listed ==> exists e :: e in users && s == Summary(users[e])
      ensures Valid() ==> forall s :: s in listed ==> s.email in users && s == Summary(users[s.email])
    {
      set e | e in users :: Summary(users[e])
    }
  }

  /** Two submissions with one email to an empty table: the first is
      created, the second is rejected with status 400, and the table ends up
      holding the first record only. */
  method DuplicateSubmission(first: ProfileInput, second: ProfileInput)
    returns (r1: PostResponse, r2: PostResponse, table: map<string, User>)
    requires first.email == second.email
    ensures r1 == Created(NewUser(first, 1, 100), PlanNamesFor(first.bodyGoal))
    ensures r2 == Rejected(400, "User already exists")
    ensures table == map[first.email := NewUser(first, 1, 100)]
  {
    var store := new UserStore();
    r1 := store.Post(first, 1, 100);
    r2 := store.Post(second, 2, 200);
    table := store.users;
  }
}
