/** The in-memory program snapshot: Program -> DayProgram -> Exercise ->
    ExerciseSet, each a mutable record whose setters assign fields and whose
    lists grow by appending, plus the ExerciseUpdate builder that collects a
    pending edit one field at a time. */
module ProgramClasses {
  import opened Wrappers
  import opened Text

  /** `f"{x}"` for a field that may still hold None. */
  function ShowText(x: Option<string>): string
  {
    if x.Some? then x.value else "None"
  }

  function ShowInt(x: Option<int>): string
  {
    if x.Some? then IntToString(x.value) else "None"
  }

  /** One set of an exercise: weight (a float in the source), rest seconds and
      repetitions, all None until filled. */
  class ExerciseSet {
    var weight: Option<real>
    var rest: Option<int>
    var reps: Option<int>

    constructor()
      ensures weight == None && rest == None && reps == None
    {
      weight, rest, reps := None, None, None;
    }

    method FillSet(newWeight: real, newRest: int, newReps: int)
      modifies this
      ensures weight == Some(newWeight) && rest == Some(newRest) && reps == Some(newReps)
    {
      weight, rest, reps := Some(newWeight), Some(newRest), Some(newReps);
    }

    method UpdateWeight(newWeight: real)
      modifies this
      ensures weight == Some(newWeight) && rest == old(rest) && reps == old(reps)
    {
      weight := Some(newWeight);
    }

    method UpdateRest(newRest: int)
      modifies this
      ensures rest == Some(newRest) && weight == old(weight) && reps == old(reps)
    {
      rest := Some(newRest);
    }

    method UpdateReps(newReps: int)
      modifies this
      ensures reps == Some(newReps) && weight == old(weight) && rest == old(rest)
    {
      reps := Some(newReps);
    }

    /** Formatting a None field with a width raises in Python, so only a
        filled set can be displayed. */
    predicate Filled()
      reads this
    {
      weight.Some? && rest.Some? && reps.Some?
    }

    /** The three values of a filled set. */
    function Values(): SetValues
      reads this
      requires Filled()
    {
      SetValues(reps.value, weight.value, rest.value)
    }
  }

  datatype SetValues = SetValues(reps: int, weight: real, rest: int)

  /** `ExerciseSet.to_string`: the fixed one-line template
      `Reps: r | Weight: w kg | Rest: t s`, each label and value left-justified
      to its width; `showWeight` is Python's rendering of a float. */
  function SetText(v: SetValues, showWeight: real -> string): string
  {
    PadRight("Reps:", 6) + " " + PadRight(IntToString(v.reps), 3) + " | "
    + PadRight("Weight:", 7) + " " + PadRight(showWeight(v.weight), 5) + "kg | "
    + PadRight("Rest:", 5) + " " + PadRight(IntToString(v.rest), 3) + "s"
  }

  /** When each value fits its width, every set text has the same length
      and the three values sit in the same columns, so the lines of an
      exercise line up. */
  lemma SetTextColumns(v: SetValues, showWeight: real -> string)
    requires |IntToString(v.reps)| <= 3 && |showWeight(v.weight)| <= 5 && |IntToString(v.rest)| <= 3
    ensures |SetText(v, showWeight)| == 41
    ensures SetText(v, showWeight)[7..10] == PadRight(IntToString(v.reps), 3)
    ensures SetText(v, showWeight)[21..26] == PadRight(showWeight(v.weight), 5)
    ensures SetText(v, showWeight)[26..31] == "kg | "
    ensures SetText(v, showWeight)[37..40] == PadRight(IntToString(v.rest), 3)
  {
    var reps, weight, rest := PadRight(IntToString(v.reps), 3), PadRight(showWeight(v.weight), 5), PadRight(IntToString(v.rest), 3);
    PadRightShape("Reps:", 6);
    PadRightShape(IntToString(v.reps), 3);
    PadRightShape("Weight:", 7);
    PadRightShape(showWeight(v.weight), 5);
    PadRightShape("Rest:", 5);
    PadRightShape(IntToString(v.rest), 3);
    var head := PadRight("Reps:", 6) + " ";
    var middle := " | " + PadRight("Weight:", 7) + " ";
    var tail := "kg | " + PadRight("Rest:", 5) + " ";
    var t := SetText(v, showWeight);
    assert t == head + reps + middle + weight + tail + rest + "s";
    assert |head| == 7 && |middle| == 11 && |tail| == 11;
  }

  /** The first line of `Exercise.to_string`, naming the exercise. */
  function ExerciseHeader(name: Option<string>): string
  {
    "\n" + ShowText(name) + ":\n"
  }

  /** The display line of set number `number` (counted from 1). */
  function SetLine(number: nat, text: string): string
  {
    "  Set " + NatToString(number) + ": " + text + "\n"
  }

  ghost predicate AllFilled(sets: seq<ExerciseSet>)
    reads sets
  {
    forall i :: 0 <= i < |sets| ==> sets[i].Filled()
  }

  function ValuesOf(sets: seq<ExerciseSet>): (values: seq<SetValues>)
    reads sets
    requires AllFilled(sets)
    ensures |values| == |sets|
    ensures forall i :: 0 <= i < |sets| ==> values[i] == sets[i].Values()
  {
    if sets == [] then [] else ValuesOf(sets[..|sets| - 1]) + [sets[|sets| - 1].Values()]
  }

  /** `ExerciseSet.to_string` of each set, in order. */
  function SetTexts(values: seq<SetValues>, showWeight: real -> string): (texts: seq<string>)
    ensures |texts| == |values|
    ensures forall i :: 0 <= i < |values| ==> texts[i] == SetText(values[i], showWeight)
  {
    seq(|values|, i requires 0 <= i < |values| => SetText(values[i], showWeight))
  }

  /** The set lines of `Exercise.to_string` for these set texts, numbered
      from 1 by `enumerate`. */
  function NumberLines(texts: seq<string>): (lines: seq<string>)
    ensures |lines| == |texts|
  {
    if texts == [] then []
    else NumberLines(texts[..|texts| - 1]) + [SetLine(|texts|, texts[|texts| - 1])]
  }

  /** Line `i` (from 0) is text `i` under the number `i + 1`. */
  lemma {:induction false} NumberLinesAt(texts: seq<string>, i: nat)
    requires i < |texts|
    ensures NumberLines(texts)[i] == SetLine(i + 1, texts[i])
  {
    var n := |texts| - 1;
    if i < n {
      NumberLinesAt(texts[..n], i);
      assert texts[..n][i] == texts[i];
    }
  }

  /** The lines `Exercise.to_string` emits for sets with these values. */
  function SetLines(values: seq<SetValues>, showWeight: real -> string): (lines: seq<string>)
    ensures |lines| == |values|
  {
    NumberLines(SetTexts(values, showWeight))
  }

  /** Line `i` (from 0) displays the values of set `i` under the number `i + 1`. */
  lemma SetLinesAt(values: seq<SetValues>, showWeight: real -> string, i: nat)
    requires i < |values|
    ensures SetLines(values, showWeight)[i] == SetLine(i + 1, SetText(values[i], showWeight))
  {
    NumberLinesAt(SetTexts(values, showWeight), i);
  }

  /** One exercise of a day: identity, name, free-text notes and its sets,
      which the user addresses from 1. */
  class Exercise {
    var id: Option<int>
    var name: Option<string>
    var comment: Option<string>
    var extraInfo: Option<string>
    var sets: seq<ExerciseSet>

    constructor()
      ensures id == None && name == None && comment == None && extraInfo == None && sets == []
    {
      id, name, comment, extraInfo, sets := None, None, None, None, [];
    }

    method SetName(newName: string)
      modifies this`name
      ensures name == Some(newName)
    {
      name := Some(newName);
    }

    method SetId(newId: int)
      modifies this`id
      ensures id == Some(newId)
    {
      id := Some(newId);
    }

    method SetComment(newComment: string)
      modifies this`comment
      ensures comment == Some(newComment)
    {
      comment := Some(newComment);
    }

    method SetExtraInfo(newExtraInfo: string)
      modifies this`extraInfo
      ensures extraInfo == Some(newExtraInfo)
    {
      extraInfo := Some(newExtraInfo);
    }

    method SetExerciseSets(newSets: seq<ExerciseSet>)
      modifies this`sets
      ensures sets == newSets
    {
      sets := newSets;
    }

    /** Appends a set; the earlier sets keep their numbers and the new one is
        both the last set and set number `GetNumSets()`. */
    method AddSet(newSet: ExerciseSet)
      modifies this`sets
      ensures sets == old(sets) + [newSet]
      ensures GetNumSets() == old(GetNumSets()) + 1
      ensures GetLastSet() == Success(newSet) && GetSet(GetNumSets()) == Success(newSet)
      ensures forall n :: 1 <= n <= old(GetNumSets()) ==> GetSet(n) == old(GetSet(n))
    {
      sets := sets + [newSet];
    }

    /** Set number `setNumber`, counted from 1; outside 1..number of sets the
        source raises IndexError. */
    function GetSet(setNumber: int): (r: Result<ExerciseSet, string>)
      reads this
      ensures r.Failure? <==> setNumber < 1 || setNumber > |sets|
      ensures r.Success? ==> r.value == sets[setNumber - 1]
      ensures r.Failure? ==> r.error == "IndexError: Set number out of range."
    {
      if setNumber < 1 || setNumber > |sets| then Failure("IndexError: Set number out of range.")
      else Success(sets[setNumber - 1])
    }

    /** `sets[-1]`: the last set, which is set number `GetNumSets()`, or the
        IndexError an empty list raises. */
    function GetLastSet(): (r: Result<ExerciseSet, string>)
      reads this
      ensures r.Failure? <==> GetNumSets() == 0
      ensures r.Failure? ==> r.error == "IndexError"
      ensures r.Success? ==> GetSet(GetNumSets()) == r
    {
      if |sets| == 0 then Failure("IndexError") else Success(sets[|sets| - 1])
    }

    /** The number of sets: exactly the set numbers 1 to it can be read. */
    function GetNumSets(): (n: nat)
      reads this
      ensures forall k :: 1 <= k <= n <==> GetSet(k).Success?
    {
      |sets|
    }

    ghost predicate Printable()
      reads this, sets
    {
      AllFilled(sets)
    }

    /** What `to_string` returns: a header with the name, then one line per
        set numbered from 1 in list order. */
    function Text(showWeight: real -> string): string
      reads this, sets
      requires Printable()
    {
      Concat([ExerciseHeader(name)] + SetLines(ValuesOf(sets), showWeight))
    }

    method ToString(showWeight: real -> string) returns (text: string)
      requires Printable()
      ensures text == Text(showWeight)
    {
      var header := ExerciseHeader(name);
      var values := ValuesOf(sets);
      ghost var parts := [header] + SetLines(values, showWeight);
      assert |parts| == |values| + 1;
      text := header;
      ConcatPrefixStep(parts, 0);
      var i := 0;
      while i < |values|
        invariant 0 <= i <= |values|
        invariant text == Concat(parts[..i + 1])
      {
        var line := SetLine(i + 1, SetText(values[i], showWeight));
        TextStep(header, values, showWeight, i);
        text := text + line;
        i := i + 1;
      }
      assert parts[..|values| + 1] == parts;
      assert text == Concat(parts);
    }
  }

  /** Appending line `i` (from 0) extends the text accumulated so far by
      one more part. */
  lemma TextStep(header: string, values: seq<SetValues>, showWeight: real -> string, i: nat)
    requires i < |values|
    ensures var parts := [header] + SetLines(values, showWeight);
      Concat(parts[..i + 2]) == Concat(parts[..i + 1]) + SetLine(i + 1, SetText(values[i], showWeight))
  {
    var parts := [header] + SetLines(values, showWeight);
    SetLinesAt(values, showWeight, i);
    ConcatPrefixStep(parts, i + 1);
  }

  /** Adding a set to an exercise adds exactly one line to its display, at
      the end, numbered with the new set count. */
  lemma {:induction false} AddedSetAddsLastLine(values: seq<SetValues>, v: SetValues, showWeight: real -> string)
    ensures Concat(SetLines(values + [v], showWeight))
         == Concat(SetLines(values, showWeight)) + SetLine(|values| + 1, SetText(v, showWeight))
  {
    var line := SetLine(|values| + 1, SetText(v, showWeight));
    var texts := SetTexts(values + [v], showWeight);
    assert texts[..|values|] == SetTexts(values, showWeight);
    assert SetLines(values + [v], showWeight) == SetLines(values, showWeight) + [line];
    ConcatAppend(SetLines(values, showWeight), [line]);
    assert Concat([line]) == line;
  }

  /** One training day: its number in the week, its name and its exercises
      in order. */
  class DayProgram {
    var id: Option<int>
    var dayNumber: Option<int>
    var dayName: Option<string>
    var exercises: seq<Exercise>

    constructor()
      ensures id == None && dayNumber == None && dayName == None && exercises == []
    {
      id, dayNumber, dayName, exercises := None, None, None, [];
    }

    method SetId(newId: int)
      modifies this`id
      ensures id == Some(newId)
    {
      id := Some(newId);
    }

    method SetDayNumber(newDayNumber: int)
      modifies this`dayNumber
      ensures dayNumber == Some(newDayNumber)
    {
      dayNumber := Some(newDayNumber);
    }

    method SetDayName(newDayName: string)
      modifies this`dayName
      ensures dayName == Some(newDayName)
    {
      dayName := Some(newDayName);
    }

    /** Appends an exercise after the existing ones, which keep their order. */
    method AddExercise(newExercise: Exercise)
      modifies this`exercises
      ensures exercises == old(exercises) + [newExercise]
      ensures GetLastExercise() == Success(newExercise)
    {
      exercises := exercises + [newExercise];
    }

    method SetExercises(newExercises: seq<Exercise>)
      modifies this`exercises
      ensures exercises == newExercises
    {
      exercises := newExercises;
    }

    /** `exercises[-1]`: the last exercise, or the IndexError an empty
        list raises. */
    function GetLastExercise(): (r: Result<Exercise, string>)
      reads this
      ensures r.Failure? <==> |exercises| == 0
      ensures r.Failure? ==> r.error == "IndexError"
      ensures r.Success? ==> r.value in exercises && r.value == exercises[|exercises| - 1]
    {
      if |exercises| == 0 then Failure("IndexError") else Success(exercises[|exercises| - 1])
    }

  }

  /** A whole training program: its name and its days in order. */
  class Program {
    var id: Option<int>
    var programName: Option<string>
    var days: seq<DayProgram>

    constructor()
      ensures id == None && programName == None && days == []
    {
      id, programName, days := None, None, [];
    }

    method SetId(newId: int)
      modifies this`id
      ensures id == Some(newId)
    {
      id := Some(newId);
    }

    method SetProgramName(newProgramName: string)
      modifies this`programName
      ensures programName == Some(newProgramName)
    {
      programName := Some(newProgramName);
    }

    method SetDays(newDays: seq<DayProgram>)
      modifies this`days
      ensures days == newDays
    {
      days := newDays;
    }

    /** Appends a day after the existing ones, which keep their order. */
    method AddDay(newDay: DayProgram)
      modifies this`days
      ensures days == old(days) + [newDay]
      ensures |days| == |old(days)| + 1 && days[|days| - 1] == newDay
    {
      days := days + [newDay];
    }
  }

  /** The six fields of a pending exercise edit, as one value. */
  datatype UpdateFields = UpdateFields(
    chatId: Option<int>,
    exerciseNum: Option<int>,
    setNum: Option<int>,
    whatToUpdate: Option<string>,
    valueToUpdate: Option<string>,
    exerciseExpression: Option<string>)

  /** The fields of a fresh or cleared builder: all None. */
  function Cleared(): (f: UpdateFields)
    ensures f.chatId.None? && f.exerciseNum.None? && f.setNum.None?
    ensures f.whatToUpdate.None? && f.valueToUpdate.None? && f.exerciseExpression.None?
  {
    UpdateFields(None, None, None, None, None, None)
  }

  /** A field after `set_values`: the given value if there is one, otherwise
      the current one. */
  function Keep<T>(current: Option<T>, given: Option<T>): (r: Option<T>)
    ensures given.Some? ==> r == given
    ensures given.None? ==> r == current
  {
    if given.Some? then given else current
  }

  /** The effect of `set_values(chat_id, ...)` on the fields: `chat_id` is
      always replaced, even by None; every other field only by a value that
      is not None. */
  function Merge(current: UpdateFields, given: UpdateFields): (r: UpdateFields)
    ensures r.chatId == given.chatId
    ensures given.exerciseNum.Some? ==> r.exerciseNum == given.exerciseNum
    ensures given.exerciseNum.None? ==> r.exerciseNum == current.exerciseNum
    ensures given.setNum.Some? ==> r.setNum == given.setNum
    ensures given.setNum.None? ==> r.setNum == current.setNum
    ensures given.whatToUpdate.Some? ==> r.whatToUpdate == given.whatToUpdate
    ensures given.whatToUpdate.None? ==> r.whatToUpdate == current.whatToUpdate
    ensures given.valueToUpdate.Some? ==> r.valueToUpdate == given.valueToUpdate
    ensures given.valueToUpdate.None? ==> r.valueToUpdate == current.valueToUpdate
    ensures given.exerciseExpression.Some? ==> r.exerciseExpression == given.exerciseExpression
    ensures given.exerciseExpression.None? ==> r.exerciseExpression == current.exerciseExpression
  {
    UpdateFields(given.chatId, Keep(current.exerciseNum, given.exerciseNum), Keep(current.setNum, given.setNum),
                 Keep(current.whatToUpdate, given.whatToUpdate), Keep(current.valueToUpdate, given.valueToUpdate),
                 Keep(current.exerciseExpression, given.exerciseExpression))
  }

  /** Repeating the same `set_values` call changes nothing more. */
  lemma MergeIdempotent(current: UpdateFields, given: UpdateFields)
    ensures Merge(Merge(current, given), given) == Merge(current, given)
  {
  }

  /** A call that passes only a chat id keeps every other field. */
  lemma MergeOnlyChatId(current: UpdateFields, chatId: Option<int>)
    ensures Merge(current, UpdateFields(chatId, None, None, None, None, None))
         == UpdateFields(chatId, current.exerciseNum, current.setNum, current.whatToUpdate,
                         current.valueToUpdate, current.exerciseExpression)
  {
  }

  /** A call that passes every field replaces the whole record. */
  lemma MergeAllGiven(current: UpdateFields, given: UpdateFields)
    requires given.exerciseNum.Some? && given.setNum.Some? && given.whatToUpdate.Some?
    requires given.valueToUpdate.Some? && given.exerciseExpression.Some?
    ensures Merge(current, given) == given
  {
  }

  /** Later values win: two calls act like one call with the second call's
      values where it gives them and the first call's values elsewhere. */
  lemma MergeTwice(current: UpdateFields, first: UpdateFields, second: UpdateFields)
    ensures Merge(Merge(current, first), second)
         == Merge(current, Merge(first, second))
  {
  }

  /** The builder that collects an edit of a set across several messages. */
  class ExerciseUpdate {
    var chatId: Option<int>
    var exerciseNum: Option<int>
    var setNum: Option<int>
    var whatToUpdate: Option<string>
    var valueToUpdate: Option<string>
    var exerciseExpression: Option<string>

    function Fields(): UpdateFields
      reads this
    {
      UpdateFields(chatId, exerciseNum, setNum, whatToUpdate, valueToUpdate, exerciseExpression)
    }

    constructor()
      ensures Fields() == Cleared()
    {
      chatId, exerciseNum, setNum := None, None, None;
      whatToUpdate, valueToUpdate, exerciseExpression := None, None, None;
    }

    /** `set_values`: merges the given fields and returns the builder itself. */
    method SetValues(newChatId: Option<int>, newExerciseNum: Option<int>, newSetNum: Option<int>,
                     newWhatToUpdate: Option<string>, newValueToUpdate: Option<string>,
                     newExerciseExpression: Option<string>)
      returns (self: ExerciseUpdate)
      modifies this
      ensures self == this
      ensures Fields() == Merge(old(Fields()), UpdateFields(newChatId, newExerciseNum, newSetNum,
                                                            newWhatToUpdate, newValueToUpdate, newExerciseExpression))
    {
      chatId := newChatId;
      if newExerciseNum.Some? {
        exerciseNum := newExerciseNum;
      }
      if newSetNum.Some? {
        setNum := newSetNum;
      }
      if newWhatToUpdate.Some? {
        whatToUpdate := newWhatToUpdate;
      }
      if newValueToUpdate.Some? {
        valueToUpdate := newValueToUpdate;
      }
      if newExerciseExpression.Some? {
        exerciseExpression := newExerciseExpression;
      }
      self := this;
    }

    /** `clear_values`: back to the fields of a fresh builder. */
    method ClearValues()
      modifies this
      ensures Fields() == Cleared()
    {
      chatId, exerciseNum, setNum := None, None, None;
      whatToUpdate, valueToUpdate, exerciseExpression := None, None, None;
    }
  }
}
