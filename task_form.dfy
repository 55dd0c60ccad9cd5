/** The check chain the three task forms run before sending anything
    (src/pages/AddTask.jsx, src/pages/UpdateTask.jsx and
    src/components/UpdateTaskModal.jsx each spell it out): every field
    filled, a positive budget, and a deadline not before today, compared
    as `YYYY-MM-DD` strings. Also the prefill the two edit forms share. */
module TaskForm {
  import opened Basics
  import opened JsText
  import opened Tasks

  /** The five controlled inputs of a task form. */
  datatype TaskFields = TaskFields(
    title: string,
    category: string,
    description: string,
    deadline: string,
    budget: string)

  /** The form's fields left as the page starts. */
  const BlankFields := TaskFields("", "", "", "", "")

  /** The rule a rejected form broke. */
  datatype FormError = MissingField | InvalidBudget | PastDeadline

  /** The text of the warning each rule shows. */
  function FormErrorText(e: FormError): string
  {
    match e
    case MissingField => "Please fill in all required fields."
    case InvalidBudget => "Please enter a valid positive number for the budget."
    case PastDeadline => "Deadline cannot be in the past."
  }

  /** True when one of the five fields is empty. */
  predicate AnyEmpty(f: TaskFields)
  {
    f.title == "" || f.category == "" || f.description == "" || f.deadline == "" || f.budget == ""
  }

  /** The checks in order for the date `today`; on success the payload
      with the parsed budget. */
  function CheckTask(f: TaskFields, today: string): Result<TaskPayload, FormError>
  {
    if AnyEmpty(f) then Err(MissingField)
    else
      var b := ParseFloat(f.budget);
      if b.None? || b.value <= 0.0 then Err(InvalidBudget)
      else if StrLess(f.deadline, today) then Err(PastDeadline)
      else Ok(TaskPayload(f.title, f.category, f.description, f.deadline, b.value))
  }

  /** The form is accepted iff every rule holds, the payload then carries
      the fields as typed with the budget's numeric value, and a rejection
      names the first rule broken. */
  lemma CheckTaskMeaning(f: TaskFields, today: string)
    ensures CheckTask(f, today).Ok? <==>
      !AnyEmpty(f) && ParseFloat(f.budget).Some? && ParseFloat(f.budget).value > 0.0 &&
      !StrLess(f.deadline, today)
    ensures CheckTask(f, today).Ok? ==>
      CheckTask(f, today).value ==
        TaskPayload(f.title, f.category, f.description, f.deadline, ParseFloat(f.budget).value) &&
      CheckTask(f, today).value.budget > 0.0
    ensures CheckTask(f, today) == Err(MissingField) <==> AnyEmpty(f)
    ensures CheckTask(f, today) == Err(InvalidBudget) <==>
      !AnyEmpty(f) && (ParseFloat(f.budget).None? || ParseFloat(f.budget).value <= 0.0)
    ensures CheckTask(f, today) == Err(PastDeadline) <==>
      !AnyEmpty(f) && ParseFloat(f.budget).Some? && ParseFloat(f.budget).value > 0.0 &&
      StrLess(f.deadline, today)
  {
  }

  /** A deadline of today itself is accepted. */
  lemma DeadlineTodayAccepted(f: TaskFields)
    ensures CheckTask(f, f.deadline) != Err(PastDeadline)
  {
    StrLessIrreflexive(f.deadline);
  }

  /** A date as the date input and `toISOString().split("T")[0]` write it. */
  function IsoDate(y: nat, m: nat, d: nat): string
    requires y < 10000 && m < 100 && d < 100
  {
    Padded(y, 4) + ("-" + (Padded(m, 2) + ("-" + Padded(d, 2))))
  }

  /** Comparing two such dates as strings compares them by year, then
      month, then day, so the deadline check is a date comparison. */
  lemma IsoDateOrder(y1: nat, m1: nat, d1: nat, y2: nat, m2: nat, d2: nat)
    requires y1 < 10000 && m1 < 100 && d1 < 100
    requires y2 < 10000 && m2 < 100 && d2 < 100
    ensures StrLess(IsoDate(y1, m1, d1), IsoDate(y2, m2, d2)) <==>
      y1 < y2 || (y1 == y2 && (m1 < m2 || (m1 == m2 && d1 < d2)))
  {
    assert Pow10(2) == 100 && Pow10(4) == 10000;
    PaddedOrder(y1, y2, 4);
    PaddedOrder(m1, m2, 2);
    PaddedOrder(d1, d2, 2);
    var dd1, dd2 := "-" + Padded(d1, 2), "-" + Padded(d2, 2);
    StrLessConcat("-", Padded(d1, 2), "-", Padded(d2, 2));
    StrLessConcat(Padded(m1, 2), dd1, Padded(m2, 2), dd2);
    var md1, md2 := Padded(m1, 2) + dd1, Padded(m2, 2) + dd2;
    StrLessConcat("-", md1, "-", md2);
    StrLessConcat(Padded(y1, 4), "-" + md1, Padded(y2, 4), "-" + md2);
    assert md1 == md2 <==> m1 == m2 && d1 == d2 by {
      if md1 == md2 {
        assert md1[..2] == Padded(m1, 2) && md2[..2] == Padded(m2, 2);
        assert dd1 == md1[2..] && dd2 == md2[2..];
        assert Padded(d1, 2) == dd1[1..] && Padded(d2, 2) == dd2[1..];
      }
    }
  }

  /** The fields an edit form fills from a stored task: the deadline cut
      to its date part (empty for a missing one) and the budget as text. */
  function PrefillFields(t: Task): TaskFields
  {
    TaskFields(t.title, t.category, t.description,
               if Truthy(t.deadline) then DatePart(t.deadline.value) else "",
               NumberText(t.budget))
  }

  /** Submitting a prefilled form unchanged sends the task's own values
      back, for a task with a whole positive budget and a deadline not
      yet passed: the only change it makes is the deadline's cut. */
  lemma PrefillResubmit(t: Task, today: string, n: int)
    requires t.budget == n as real && n > 0
    requires t.title != "" && t.category != "" && t.description != ""
    requires Truthy(t.deadline) && DatePart(t.deadline.value) != ""
    requires !StrLess(DatePart(t.deadline.value), today)
    ensures CheckTask(PrefillFields(t), today) ==
      Ok(TaskPayload(t.title, t.category, t.description, DatePart(t.deadline.value), t.budget))
    ensures ApplyUpdate(t, CheckTask(PrefillFields(t), today).value) ==
      t.(deadline := Some(DatePart(t.deadline.value)))
  {
    ParseNumberText(n);
    assert NumberText(t.budget) != "" by {
      NumberTextWhole(n);
    }
  }
}
