/** The hosted backend the routes and the script talk to, reduced to the tables
    they write: exercises and their three relation tables, auth accounts and
    profiles. Each write either applies in full or reports a failure. */
module Backend {
  import opened Identity

  /** What a failed backend call produced: its `message`, and whether it is an
      `Error` instance (auth errors are; database errors are plain objects). */
  datatype Fault = Fault(message: string, isError: bool)

  /** The columns the exercise insert copies from the request body. */
  datatype ExerciseColumns = ExerciseColumns(
    name: string,
    alternativeNames: seq<string>,
    description: string,
    detailedSteps: string,
    executionTips: string,
    commonMistakes: string,
    images: seq<string>,
    videoLinks: seq<string>,
    categoryId: string,
    seriesMin: int, seriesMax: int,
    repsMin: int, repsMax: int,
    restSeconds: int,
    rirMin: int, rirMax: int,
    rpeMin: int, rpeMax: int)

  /** A stored exercise: the id the database assigned, the copied columns and `created_by`. */
  datatype ExerciseRow = ExerciseRow(id: string, columns: ExerciseColumns, createdBy: string)

  /** `exercise_muscles`, `exercise_equipment` and `exercise_variants` rows. */
  datatype MuscleLink = MuscleLink(exerciseId: string, muscleId: string)
  datatype EquipmentLink = EquipmentLink(exerciseId: string, equipmentId: string, isAlternative: bool)
  datatype VariantLink = VariantLink(exerciseId: string, variantId: string)

  /** An auth account: the user record, its password and whether its email is confirmed. */
  datatype Account = Account(user: AuthUser, password: string, emailConfirmed: bool)

  /** A `profiles` row; `role` is whatever text was written. */
  datatype Profile = Profile(id: string, fullName: string, role: string)

  /** A snapshot of every table. */
  datatype Tables = Tables(
    exercises: seq<ExerciseRow>,
    muscles: seq<MuscleLink>,
    equipment: seq<EquipmentLink>,
    variants: seq<VariantLink>,
    accounts: map<string, Account>,
    profiles: map<string, Profile>)

  /** The backend's state. Relation tables are append-only sequences; accounts and
      profiles are keyed by user id. */
  class Database {
    var exercises: seq<ExerciseRow>
    var muscles: seq<MuscleLink>
    var equipment: seq<EquipmentLink>
    var variants: seq<VariantLink>
    var accounts: map<string, Account>
    var profiles: map<string, Profile>

    ghost function Snapshot(): Tables
      reads this
    {
      Tables(exercises, muscles, equipment, variants, accounts, profiles)
    }

    constructor (accounts: map<string, Account>, profiles: map<string, Profile>)
      ensures Snapshot() == Tables([], [], [], [], accounts, profiles)
    {
      this.exercises := [];
      this.muscles := [];
      this.equipment := [];
      this.variants := [];
      this.accounts := accounts;
      this.profiles := profiles;
    }

    method InsertExercise(row: ExerciseRow)
      modifies this
      ensures Snapshot() == old(Snapshot()).(exercises := old(exercises) + [row])
    {
      exercises := exercises + [row];
    }

    method InsertMuscles(rows: seq<MuscleLink>)
      modifies this
      ensures Snapshot() == old(Snapshot()).(muscles := old(muscles) + rows)
    {
      muscles := muscles + rows;
    }

    method InsertEquipment(rows: seq<EquipmentLink>)
      modifies this
      ensures Snapshot() == old(Snapshot()).(equipment := old(equipment) + rows)
    {
      equipment := equipment + rows;
    }

    method InsertVariants(rows: seq<VariantLink>)
      modifies this
      ensures Snapshot() == old(Snapshot()).(variants := old(variants) + rows)
    {
      variants := variants + rows;
    }

    /** Store an account under a user id (creation and update alike). */
    method PutAccount(id: string, account: Account)
      modifies this
      ensures Snapshot() == old(Snapshot()).(accounts := old(accounts)[id := account])
    {
      accounts := accounts[id := account];
    }

    method DeleteAccount(id: string)
      modifies this
      ensures Snapshot() == old(Snapshot()).(accounts := old(accounts) - {id})
    {
      accounts := accounts - {id};
    }

    /** `upsert(..., { onConflict: 'id' })`: insert, or replace the row with the same id. */
    method UpsertProfile(profile: Profile)
      modifies this
      ensures Snapshot() == old(Snapshot()).(profiles := old(profiles)[profile.id := profile])
    {
      profiles := profiles[profile.id := profile];
    }
  }
}
