/** `POST /api/admin/exercises`: authenticate the bearer token, insert the
    exercise, then its muscle, equipment, alternative-equipment and variant
    relations, stopping at the first failure without undoing earlier inserts.
    The token lookup, the id the database assigns and the failing inserts are
    parameters. */
module ExercisesRoute {
  import opened Common
  import opened Identity
  import opened Backend

  const UnauthorizedText: string := "No autorizado"
  const CreateErrorText: string := "Error al crear ejercicio"
  /** The engine's message for `undefined.length`, raised when a relation list is missing from the body. */
  const LengthOfUndefinedText: string := "Cannot read properties of undefined (reading 'length')"

  // ---------------------------------------------------------------------------
  // The Authorization header

  /** `authHeader?.split(' ')[1]`: the second space-separated segment, if there is one. */
  function BearerToken(header: Option<string>): Option<string> {
    if header.Some? && |SplitSpace(header.value)| >= 2 then Some(SplitSpace(header.value)[1]) else None
  }

  /** A header made of a scheme word, one space and a token yields exactly that token,
      whatever follows it after a further space. */
  lemma BearerTokenOfHeader(scheme: string, token: string, rest: string)
    requires NoSpace(scheme) && NoSpace(token)
    ensures BearerToken(Some(scheme + " " + token)) == Some(token)
    ensures BearerToken(Some(scheme + " " + token + " " + rest)) == Some(token)
  {
    SplitAfterWord(scheme, token);
    SplitWord(token);
    assert scheme + " " + token + " " + rest == scheme + " " + (token + " " + rest);
    SplitAfterWord(scheme, token + " " + rest);
    SplitAfterWord(token, rest);
  }

  /** A header without a space (a bare token, or a bare "Bearer") has no token. */
  lemma NoTokenWithoutSpace(header: string)
    requires NoSpace(header)
    ensures BearerToken(Some(header)) == None
  {
    SplitWord(header);
  }

  /** The token is present and non-empty, and the backend resolves it to a user. */
  predicate Authenticated(header: Option<string>, users: map<string, AuthUser>) {
    Truthy(BearerToken(header)) && BearerToken(header).value in users
  }

  // ---------------------------------------------------------------------------
  // Join rows

  /** `muscle_ids.map(muscleId => ({ exercise_id, muscle_id: muscleId }))`. */
  function MuscleLinks(exerciseId: string, ids: seq<string>): (rows: seq<MuscleLink>)
    ensures |rows| == |ids|
    ensures forall k :: 0 <= k < |ids| ==> rows[k] == MuscleLink(exerciseId, ids[k])
    decreases |ids|
  {
    if ids == [] then [] else [MuscleLink(exerciseId, ids[0])] + MuscleLinks(exerciseId, ids[1..])
  }

  /** The equipment rows, all flagged with the same `is_alternative`. */
  function EquipmentLinks(exerciseId: string, ids: seq<string>, isAlternative: bool): (rows: seq<EquipmentLink>)
    ensures |rows| == |ids|
    ensures forall k :: 0 <= k < |ids| ==> rows[k] == EquipmentLink(exerciseId, ids[k], isAlternative)
    decreases |ids|
  {
    if ids == [] then [] else [EquipmentLink(exerciseId, ids[0], isAlternative)] + EquipmentLinks(exerciseId, ids[1..], isAlternative)
  }

  function VariantLinks(exerciseId: string, ids: seq<string>): (rows: seq<VariantLink>)
    ensures |rows| == |ids|
    ensures forall k :: 0 <= k < |ids| ==> rows[k] == VariantLink(exerciseId, ids[k])
    decreases |ids|
  {
    if ids == [] then [] else [VariantLink(exerciseId, ids[0])] + VariantLinks(exerciseId, ids[1..])
  }

  // ---------------------------------------------------------------------------
  // The handler

  /** The request body: the copied columns and the four relation lists, any of which may be missing. */
  datatype ExerciseBody = ExerciseBody(
    columns: ExerciseColumns,
    muscleIds: Option<seq<string>>,
    equipmentIds: Option<seq<string>>,
    alternativeEquipmentIds: Option<seq<string>>,
    variantIds: Option<seq<string>>)

  /** The five inserts, in the order the handler issues them. */
  datatype Step = InsertExercise | InsertMuscles | InsertEquipment | InsertAlternativeEquipment | InsertVariants

  /** The JSON response: the created row, or an error status and message. */
  datatype PostReply = Created(row: ExerciseRow) | Failed(status: int, error: string)

  /** The rows one request wrote, per table. */
  datatype Added = Added(
    exercises: seq<ExerciseRow>,
    muscles: seq<MuscleLink>,
    equipment: seq<EquipmentLink>,
    variants: seq<VariantLink>)

  datatype Outcome = Outcome(reply: PostReply, added: Added)

  const NothingAdded: Added := Added([], [], [], [])

  /** The `catch` block: `error.message || 'Error al crear ejercicio'` with status 500. */
  function ServerError(message: string): PostReply {
    Failed(500, OrElse(Some(message), CreateErrorText))
  }

  function FaultAt(faults: map<Step, string>, step: Step): Option<string> {
    if step in faults then Some(faults[step]) else None
  }

  /** How a relation step ends: a missing list throws on `.length`; an empty one is
      skipped (so no insert can fail); otherwise the insert's own failure, if any. */
  function StepFailure(ids: Option<seq<string>>, fault: Option<string>): (failure: Option<string>)
    ensures ids == Some([]) ==> failure.None?
    ensures ids.None? ==> failure == Some(LengthOfUndefinedText)
  {
    if ids.None? then Some(LengthOfUndefinedText)
    else if |ids.value| > 0 && fault.Some? then fault
    else None
  }

  /** The body's list for a relation step; the exercise insert has none. */
  function RelationList(body: ExerciseBody, step: Step): Option<seq<string>> {
    match step
    case InsertExercise => None
    case InsertMuscles => body.muscleIds
    case InsertEquipment => body.equipmentIds
    case InsertAlternativeEquipment => body.alternativeEquipmentIds
    case InsertVariants => body.variantIds
  }

  /** The error a step throws when the handler reaches it, if any. */
  function StepError(body: ExerciseBody, faults: map<Step, string>, step: Step): (e: Option<string>)
    ensures step == InsertExercise ==> e == FaultAt(faults, InsertExercise)
    ensures step != InsertExercise && RelationList(body, step) == Some([]) ==> e.None?
    ensures step != InsertExercise && RelationList(body, step).None? ==> e == Some(LengthOfUndefinedText)
  {
    if step == InsertExercise then FaultAt(faults, InsertExercise)
    else StepFailure(RelationList(body, step), FaultAt(faults, step))
  }

  /** The position of a step in the handler's sequence of inserts. */
  function Rank(step: Step): nat {
    match step
    case InsertExercise => 0
    case InsertMuscles => 1
    case InsertEquipment => 2
    case InsertAlternativeEquipment => 3
    case InsertVariants => 4
  }

  /** Whether `step` is the first step to throw: it throws, and every step before it succeeds. */
  predicate FirstFailing(body: ExerciseBody, faults: map<Step, string>, step: Step) {
    StepError(body, faults, step).Some?
    && forall earlier: Step :: Rank(earlier) < Rank(step) ==> StepError(body, faults, earlier).None?
  }

  /** The rows written by the steps that run before `step`, each of them succeeding. */
  function RowsBefore(row: ExerciseRow, body: ExerciseBody, step: Step): Added {
    match step
    case InsertExercise => NothingAdded
    case InsertMuscles => Added([row], [], [], [])
    case InsertEquipment => Added([row], MuscleLinks(row.id, OrEmpty(body.muscleIds)), [], [])
    case InsertAlternativeEquipment =>
      Added([row], MuscleLinks(row.id, OrEmpty(body.muscleIds)), EquipmentLinks(row.id, OrEmpty(body.equipmentIds), false), [])
    case InsertVariants =>
      Added([row], MuscleLinks(row.id, OrEmpty(body.muscleIds)),
            EquipmentLinks(row.id, OrEmpty(body.equipmentIds), false)
              + EquipmentLinks(row.id, OrEmpty(body.alternativeEquipmentIds), true), [])
  }

  /** The response and the written rows of one request. `users` maps the tokens the
      backend accepts to their users; `newId` is the id it gives the new exercise;
      `faults` holds the error message of each insert that fails. */
  function Post(header: Option<string>, body: ExerciseBody, users: map<string, AuthUser>, newId: string,
                faults: map<Step, string>): (o: Outcome)
    ensures !Authenticated(header, users) ==> o == Outcome(Failed(401, UnauthorizedText), NothingAdded)
    ensures (o.reply.Failed? && o.reply.status == 401) <==> !Authenticated(header, users)
    ensures o.reply.Failed? ==> o.reply.status == 401 || o.reply.status == 500
    ensures Authenticated(header, users) && InsertExercise in faults ==>
      o == Outcome(ServerError(faults[InsertExercise]), NothingAdded)
    ensures o.added.exercises != [] ==>
      Authenticated(header, users)
      && o.added.exercises == [ExerciseRow(newId, body.columns, users[BearerToken(header).value].id)]
    ensures o.reply.Created? ==>
      && Authenticated(header, users)
      && o.reply.row == ExerciseRow(newId, body.columns, users[BearerToken(header).value].id)
      && body.muscleIds.Some? && body.equipmentIds.Some? && body.alternativeEquipmentIds.Some? && body.variantIds.Some?
      && o.added == Added([o.reply.row],
                          MuscleLinks(newId, body.muscleIds.value),
                          EquipmentLinks(newId, body.equipmentIds.value, false)
                            + EquipmentLinks(newId, body.alternativeEquipmentIds.value, true),
                          VariantLinks(newId, body.variantIds.value))
  {
    if !Authenticated(header, users) then Outcome(Failed(401, UnauthorizedText), NothingAdded)
    else
      var user := users[BearerToken(header).value];
      if InsertExercise in faults then Outcome(ServerError(faults[InsertExercise]), NothingAdded)
      else Relations(ExerciseRow(newId, body.columns, user.id), body, faults)
  }

  /** Everything after a successful exercise insert: the four relation steps in order,
      each writing its rows only when every step before it succeeded. */
  function Relations(row: ExerciseRow, body: ExerciseBody, faults: map<Step, string>): (o: Outcome)
    ensures o.added.exercises == [row]
    ensures o.reply.Failed? ==> o.reply.status == 500
    ensures StepError(body, faults, InsertMuscles).Some? ==>
      o == Outcome(ServerError(StepError(body, faults, InsertMuscles).value), RowsBefore(row, body, InsertMuscles))
    ensures StepError(body, faults, InsertMuscles).None? && StepError(body, faults, InsertEquipment).Some? ==>
      o == Outcome(ServerError(StepError(body, faults, InsertEquipment).value), RowsBefore(row, body, InsertEquipment))
    ensures StepError(body, faults, InsertMuscles).None? && StepError(body, faults, InsertEquipment).None?
            && StepError(body, faults, InsertAlternativeEquipment).Some? ==>
      o == Outcome(ServerError(StepError(body, faults, InsertAlternativeEquipment).value),
                   RowsBefore(row, body, InsertAlternativeEquipment))
    ensures StepError(body, faults, InsertMuscles).None? && StepError(body, faults, InsertEquipment).None?
            && StepError(body, faults, InsertAlternativeEquipment).None? && StepError(body, faults, InsertVariants).Some? ==>
      o == Outcome(ServerError(StepError(body, faults, InsertVariants).value), RowsBefore(row, body, InsertVariants))
    ensures o.reply.Created? ==>
      && o.reply.row == row
      && body.muscleIds.Some? && body.equipmentIds.Some? && body.alternativeEquipmentIds.Some? && body.variantIds.Some?
      && o.added == Added([row],
                          MuscleLinks(row.id, body.muscleIds.value),
                          EquipmentLinks(row.id, body.equipmentIds.value, false)
                            + EquipmentLinks(row.id, body.alternativeEquipmentIds.value, true),
                          VariantLinks(row.id, body.variantIds.value))
  {
    var rest := MuscleStep(row, body, faults);
    Outcome(rest.reply, rest.added.(exercises := [row]))
  }

  /** Step 2: the muscle rows, then step 3. */
  function MuscleStep(row: ExerciseRow, body: ExerciseBody, faults: map<Step, string>): (o: Outcome)
    ensures o.added.exercises == []
    ensures o.reply.Failed? ==> o.reply.status == 500
    ensures StepError(body, faults, InsertMuscles).Some? ==>
      o == Outcome(ServerError(StepError(body, faults, InsertMuscles).value), NothingAdded)
    ensures StepError(body, faults, InsertMuscles).None? ==>
      o.added.muscles == MuscleLinks(row.id, OrEmpty(body.muscleIds))
    ensures o.reply.Created? ==>
      && o.reply.row == row
      && body.muscleIds.Some? && body.equipmentIds.Some? && body.alternativeEquipmentIds.Some? && body.variantIds.Some?
      && o.added == Added([],
                          MuscleLinks(row.id, body.muscleIds.value),
                          EquipmentLinks(row.id, body.equipmentIds.value, false)
                            + EquipmentLinks(row.id, body.alternativeEquipmentIds.value, true),
                          VariantLinks(row.id, body.variantIds.value))
  {
    var failure := StepError(body, faults, InsertMuscles);
    if failure.Some? then Outcome(ServerError(failure.value), NothingAdded)
    else
      var rest := EquipmentStep(row, body, faults);
      Outcome(rest.reply, rest.added.(muscles := MuscleLinks(row.id, body.muscleIds.value) + rest.added.muscles))
  }

  /** Step 3: the main equipment rows, then step 4. */
  function EquipmentStep(row: ExerciseRow, body: ExerciseBody, faults: map<Step, string>): (o: Outcome)
    ensures o.added.exercises == [] && o.added.muscles == []
    ensures o.reply.Failed? ==> o.reply.status == 500
    ensures StepError(body, faults, InsertEquipment).Some? ==>
      o == Outcome(ServerError(StepError(body, faults, InsertEquipment).value), NothingAdded)
    ensures StepError(body, faults, InsertEquipment).None? ==>
      EquipmentLinks(row.id, OrEmpty(body.equipmentIds), false) <= o.added.equipment
    ensures o.reply.Created? ==>
      && o.reply.row == row
      && body.equipmentIds.Some? && body.alternativeEquipmentIds.Some? && body.variantIds.Some?
      && o.added == Added([], [],
                          EquipmentLinks(row.id, body.equipmentIds.value, false)
                            + EquipmentLinks(row.id, body.alternativeEquipmentIds.value, true),
                          VariantLinks(row.id, body.variantIds.value))
  {
    var failure := StepError(body, faults, InsertEquipment);
    if failure.Some? then Outcome(ServerError(failure.value), NothingAdded)
    else
      var rest := AlternativeStep(row, body, faults);
      Outcome(rest.reply, rest.added.(equipment := EquipmentLinks(row.id, body.equipmentIds.value, false) + rest.added.equipment))
  }

  /** Step 4: the alternative equipment rows, then step 5. */
  function AlternativeStep(row: ExerciseRow, body: ExerciseBody, faults: map<Step, string>): (o: Outcome)
    ensures o.added.exercises == [] && o.added.muscles == []
    ensures o.reply.Failed? ==> o.reply.status == 500
    ensures StepError(body, faults, InsertAlternativeEquipment).Some? ==>
      o == Outcome(ServerError(StepError(body, faults, InsertAlternativeEquipment).value), NothingAdded)
    ensures StepError(body, faults, InsertAlternativeEquipment).None? ==>
      o.added.equipment == EquipmentLinks(row.id, OrEmpty(body.alternativeEquipmentIds), true)
    ensures o.reply.Created? ==>
      && o.reply.row == row
      && body.alternativeEquipmentIds.Some? && body.variantIds.Some?
      && o.added == Added([], [],
                          EquipmentLinks(row.id, body.alternativeEquipmentIds.value, true),
                          VariantLinks(row.id, body.variantIds.value))
  {
    var failure := StepError(body, faults, InsertAlternativeEquipment);
    if failure.Some? then Outcome(ServerError(failure.value), NothingAdded)
    else
      var rest := VariantStep(row, body, faults);
      Outcome(rest.reply, rest.added.(equipment := EquipmentLinks(row.id, body.alternativeEquipmentIds.value, true)))
  }

  /** Step 5: the variant rows; the last step, so its success is the request's success. */
  function VariantStep(row: ExerciseRow, body: ExerciseBody, faults: map<Step, string>): (o: Outcome)
    ensures o.added.exercises == [] && o.added.muscles == [] && o.added.equipment == []
    ensures o.reply.Failed? ==> o.reply.status == 500
    ensures StepError(body, faults, InsertVariants).Some? ==>
      o == Outcome(ServerError(StepError(body, faults, InsertVariants).value), NothingAdded)
    ensures o.reply.Created? <==> StepError(body, faults, InsertVariants).None?
    ensures o.reply.Created? ==>
      o.reply.row == row && body.variantIds.Some? && o.added == Added([], [], [], VariantLinks(row.id, body.variantIds.value))
  {
    var failure := StepError(body, faults, InsertVariants);
    if failure.Some? then Outcome(ServerError(failure.value), NothingAdded)
    else Outcome(Created(row), Added([], [], [], VariantLinks(row.id, body.variantIds.value)))
  }

  /** Earlier inserts are never undone: once the exercise insert succeeds, the row
      stays, whatever happens to the relation inserts after it. */
  lemma ExerciseRowSurvivesLaterFailures(header: Option<string>, body: ExerciseBody, users: map<string, AuthUser>,
                                         newId: string, faults: map<Step, string>)
    requires Authenticated(header, users) && InsertExercise !in faults
    ensures Post(header, body, users, newId, faults).added.exercises ==
            [ExerciseRow(newId, body.columns, users[BearerToken(header).value].id)]
  {
  }

  /** The first step to throw decides the request: the answer is a 500 with that step's
      message (or the default text for an empty one), and exactly the rows of the steps
      before it stay written. When no step throws, the exercise is created. */
  lemma FirstFailureDecides(header: Option<string>, body: ExerciseBody, users: map<string, AuthUser>,
                            newId: string, faults: map<Step, string>, step: Step)
    requires Authenticated(header, users)
    ensures var row := ExerciseRow(newId, body.columns, users[BearerToken(header).value].id);
      FirstFailing(body, faults, step) ==>
        Post(header, body, users, newId, faults)
          == Outcome(ServerError(StepError(body, faults, step).value), RowsBefore(row, body, step))
    ensures Post(header, body, users, newId, faults).reply.Created? <==>
      forall s: Step :: StepError(body, faults, s).None?
  {
    var o := Post(header, body, users, newId, faults);
    var row := ExerciseRow(newId, body.columns, users[BearerToken(header).value].id);
    if InsertExercise in faults {
      assert StepError(body, faults, InsertExercise).Some?;
      return;
    }
    var m := MuscleStep(row, body, faults);
    assert o.reply == m.reply && o.added == m.added.(exercises := [row]);
    if StepError(body, faults, InsertMuscles).Some? {
      return;
    }
    var e := EquipmentStep(row, body, faults);
    assert m.reply == e.reply && m.added == e.added.(muscles := MuscleLinks(row.id, OrEmpty(body.muscleIds)));
    if StepError(body, faults, InsertEquipment).Some? {
      return;
    }
    var a := AlternativeStep(row, body, faults);
    assert e.reply == a.reply;
    assert e.added == a.added.(equipment := EquipmentLinks(row.id, OrEmpty(body.equipmentIds), false) + a.added.equipment);
    if StepError(body, faults, InsertAlternativeEquipment).Some? {
      return;
    }
    var v := VariantStep(row, body, faults);
    assert a.reply == v.reply;
    assert a.added == v.added.(equipment := EquipmentLinks(row.id, OrEmpty(body.alternativeEquipmentIds), true));
    if StepError(body, faults, InsertVariants).Some? {
      return;
    }
    assert forall s: Step :: StepError(body, faults, s).None? by {
      forall s: Step ensures StepError(body, faults, s).None? {
        match s
        case InsertExercise =>
        case InsertMuscles =>
        case InsertEquipment =>
        case InsertAlternativeEquipment =>
        case InsertVariants =>
      }
    }
  }

  /** When some step throws, one of them is the first to. */
  lemma FirstFailingExists(body: ExerciseBody, faults: map<Step, string>, failing: Step)
    requires StepError(body, faults, failing).Some?
    ensures exists step: Step :: FirstFailing(body, faults, step)
  {
    if StepError(body, faults, InsertExercise).Some? {
      assert FirstFailing(body, faults, InsertExercise);
    } else if StepError(body, faults, InsertMuscles).Some? {
      assert FirstFailing(body, faults, InsertMuscles);
    } else if StepError(body, faults, InsertEquipment).Some? {
      assert FirstFailing(body, faults, InsertEquipment);
    } else if StepError(body, faults, InsertAlternativeEquipment).Some? {
      assert FirstFailing(body, faults, InsertAlternativeEquipment);
    } else {
      assert FirstFailing(body, faults, InsertVariants);
    }
  }

  /** An empty relation list issues no insert: a failure configured for that insert
      changes nothing, whichever of the four lists it is. */
  lemma EmptyListSkipsInsert(header: Option<string>, body: ExerciseBody, users: map<string, AuthUser>,
                             newId: string, faults: map<Step, string>, step: Step)
    requires step != InsertExercise && RelationList(body, step) == Some([])
    ensures StepError(body, faults, step).None?
    ensures Post(header, body, users, newId, faults) == Post(header, body, users, newId, faults - {step})
  {
    var cleared := faults - {step};
    forall s: Step ensures StepError(body, faults, s) == StepError(body, cleared, s) {
      assert FaultAt(faults, s) == FaultAt(cleared, s) || s == step;
    }
    if !Authenticated(header, users) {
      return;
    }
    FirstFailureDecides(header, body, users, newId, faults, step);
    FirstFailureDecides(header, body, users, newId, cleared, step);
    if exists failing: Step :: StepError(body, faults, failing).Some? {
      var failing: Step :| StepError(body, faults, failing).Some?;
      FirstFailingExists(body, faults, failing);
      var first: Step :| FirstFailing(body, faults, first);
      assert FirstFailing(body, cleared, first);
      FirstFailureDecides(header, body, users, newId, faults, first);
      FirstFailureDecides(header, body, users, newId, cleared, first);
    }
  }

  /** The tables after applying what one request wrote. */
  function Apply(t: Tables, added: Added): Tables {
    t.(exercises := t.exercises + added.exercises,
       muscles := t.muscles + added.muscles,
       equipment := t.equipment + added.equipment,
       variants := t.variants + added.variants)
  }

  /** Writing `first` and then `rest` leaves the tables that writing both at once does. */
  lemma ApplyTwice(t: Tables, first: Added, rest: Added)
    ensures Apply(Apply(t, first), rest)
         == Apply(t, Added(first.exercises + rest.exercises, first.muscles + rest.muscles,
                           first.equipment + rest.equipment, first.variants + rest.variants))
  {
    assert t.exercises + first.exercises + rest.exercises == t.exercises + (first.exercises + rest.exercises);
    assert t.muscles + first.muscles + rest.muscles == t.muscles + (first.muscles + rest.muscles);
    assert t.equipment + first.equipment + rest.equipment == t.equipment + (first.equipment + rest.equipment);
    assert t.variants + first.variants + rest.variants == t.variants + (first.variants + rest.variants);
  }

  /** The route handler against the database, insert by insert with early exits. */
  method HandlePost(db: Database, header: Option<string>, body: ExerciseBody, users: map<string, AuthUser>,
                    newId: string, faults: map<Step, string>) returns (reply: PostReply)
    modifies db
    ensures reply == Post(header, body, users, newId, faults).reply
    ensures db.Snapshot() == Apply(old(db.Snapshot()), Post(header, body, users, newId, faults).added)
  {
    var token := BearerToken(header);
    if !Truthy(token) {
      return Failed(401, UnauthorizedText);
    }
    if token.value !in users {
      return Failed(401, UnauthorizedText);
    }
    var user := users[token.value];
    if InsertExercise in faults {
      return ServerError(faults[InsertExercise]);
    }
    var row := ExerciseRow(newId, body.columns, user.id);
    db.InsertExercise(row);
    reply := InsertRelations(db, row, body, faults);
  }

  /** The relation inserts after the exercise row is in place. */
  method InsertRelations(db: Database, row: ExerciseRow, body: ExerciseBody, faults: map<Step, string>)
    returns (reply: PostReply)
    modifies db
    ensures reply == MuscleStep(row, body, faults).reply
    ensures db.Snapshot() == Apply(old(db.Snapshot()), MuscleStep(row, body, faults).added)
  {
    var failure := StepError(body, faults, InsertMuscles);
    if failure.Some? {
      return ServerError(failure.value);
    }
    var links := MuscleLinks(row.id, body.muscleIds.value);
    if |body.muscleIds.value| > 0 {
      db.InsertMuscles(links);
    }
    assert db.Snapshot() == Apply(old(db.Snapshot()), Added([], links, [], []));
    reply := InsertEquipmentRelations(db, row, body, faults);
    ghost var rest := EquipmentStep(row, body, faults);
    ApplyTwice(old(db.Snapshot()), Added([], links, [], []), rest.added);
    assert MuscleStep(row, body, faults) == Outcome(rest.reply, rest.added.(muscles := links + rest.added.muscles));
  }

  method InsertEquipmentRelations(db: Database, row: ExerciseRow, body: ExerciseBody, faults: map<Step, string>)
    returns (reply: PostReply)
    modifies db
    ensures reply == EquipmentStep(row, body, faults).reply
    ensures db.Snapshot() == Apply(old(db.Snapshot()), EquipmentStep(row, body, faults).added)
  {
    var failure := StepError(body, faults, InsertEquipment);
    if failure.Some? {
      return ServerError(failure.value);
    }
    var links := EquipmentLinks(row.id, body.equipmentIds.value, false);
    if |body.equipmentIds.value| > 0 {
      db.InsertEquipment(links);
    }
    assert db.Snapshot() == Apply(old(db.Snapshot()), Added([], [], links, []));
    reply := InsertAlternativeRelations(db, row, body, faults);
    ghost var rest := AlternativeStep(row, body, faults);
    ApplyTwice(old(db.Snapshot()), Added([], [], links, []), rest.added);
    assert EquipmentStep(row, body, faults) == Outcome(rest.reply, rest.added.(equipment := links + rest.added.equipment));
  }

  method InsertAlternativeRelations(db: Database, row: ExerciseRow, body: ExerciseBody, faults: map<Step, string>)
    returns (reply: PostReply)
    modifies db
    ensures reply == AlternativeStep(row, body, faults).reply
    ensures db.Snapshot() == Apply(old(db.Snapshot()), AlternativeStep(row, body, faults).added)
  {
    var failure := StepError(body, faults, InsertAlternativeEquipment);
    if failure.Some? {
      return ServerError(failure.value);
    }
    var links := EquipmentLinks(row.id, body.alternativeEquipmentIds.value, true);
    if |body.alternativeEquipmentIds.value| > 0 {
      db.InsertEquipment(links);
    }
    assert db.Snapshot() == Apply(old(db.Snapshot()), Added([], [], links, []));
    reply := InsertVariantRelations(db, row, body, faults);
    ghost var rest := VariantStep(row, body, faults);
    ApplyTwice(old(db.Snapshot()), Added([], [], links, []), rest.added);
    assert AlternativeStep(row, body, faults) == Outcome(rest.reply, rest.added.(equipment := links + rest.added.equipment));
  }

  method InsertVariantRelations(db: Database, row: ExerciseRow, body: ExerciseBody, faults: map<Step, string>)
    returns (reply: PostReply)
    modifies db
    ensures reply == VariantStep(row, body, faults).reply
    ensures db.Snapshot() == Apply(old(db.Snapshot()), VariantStep(row, body, faults).added)
  {
    var failure := StepError(body, faults, InsertVariants);
    if failure.Some? {
      return ServerError(failure.value);
    }
    if |body.variantIds.value| > 0 {
      db.InsertVariants(VariantLinks(row.id, body.variantIds.value));
    }
    return Created(row);
  }
}
