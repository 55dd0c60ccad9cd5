/** A task as the server sends it, and the two record operations the
    pages apply to it: cutting a stored deadline to its date part, and
    the spread `{ ...task, ...updatedTaskData }` of an edit. */
module Tasks {
  import opened Basics
  import opened JsText

  /** A stored task. `createdAt` is the number of milliseconds
      `new Date(task.createdAt)` gives. */
  datatype Task = Task(
    id: string,
    title: string,
    category: string,
    description: string,
    deadline: Option<string>,
    budget: real,
    userId: Option<string>,
    userEmail: Option<string>,
    userName: Option<string>,
    status: Option<string>,
    createdAt: int)

  /** The comparator `(a, b) => new Date(b.createdAt) - new Date(a.createdAt)`
      sorts by this key: newest first. */
  function NewestFirst(t: Task): int
  {
    -t.createdAt
  }

  /** The five fields an edit sends: `{ title, category, description,
      deadline, budget }`. */
  datatype TaskPayload = TaskPayload(
    title: string,
    category: string,
    description: string,
    deadline: string,
    budget: real)

  /** `{ ...task, ...updatedTaskData }` */
  function ApplyUpdate(t: Task, p: TaskPayload): Task
  {
    t.(title := p.title, category := p.category, description := p.description,
       deadline := Some(p.deadline), budget := p.budget)
  }

  /** An edit replaces the five edited fields and keeps every other
      field, the owner's among them. */
  lemma ApplyUpdateFields(t: Task, p: TaskPayload)
    ensures ApplyUpdate(t, p).id == t.id && ApplyUpdate(t, p).createdAt == t.createdAt
    ensures ApplyUpdate(t, p).userId == t.userId && ApplyUpdate(t, p).userEmail == t.userEmail
    ensures ApplyUpdate(t, p).userName == t.userName && ApplyUpdate(t, p).status == t.status
    ensures ApplyUpdate(t, p).title == p.title && ApplyUpdate(t, p).category == p.category
    ensures ApplyUpdate(t, p).description == p.description
    ensures ApplyUpdate(t, p).deadline == Some(p.deadline) && ApplyUpdate(t, p).budget == p.budget
  {
  }

  /** The later of two edits wins, and applying the task's own values
      changes nothing. */
  lemma ApplyUpdateLastWins(t: Task, p: TaskPayload, q: TaskPayload)
    ensures ApplyUpdate(ApplyUpdate(t, p), q) == ApplyUpdate(t, q)
    ensures t.deadline.Some? ==>
      ApplyUpdate(t, TaskPayload(t.title, t.category, t.description, t.deadline.value, t.budget)) == t
  {
  }

  /** `s.split('T')[0]`: the text before the first 'T'. */
  function DatePart(s: string): (r: string)
    ensures StartsWith(s, r) && 'T' !in r
    ensures |r| < |s| ==> s[|r|] == 'T'
  {
    if s == [] || s[0] == 'T' then [] else [s[0]] + DatePart(s[1..])
  }

  /** The date part is the only prefix of its kind: every 'T'-free text
      followed by a 'T' or by nothing is the date part of what it starts. */
  lemma {:induction false} DatePartUnique(d: string, rest: string)
    requires 'T' !in d
    ensures DatePart(d + "T" + rest) == d
    ensures DatePart(d) == d
  {
    if d != [] {
      assert (d + "T" + rest)[1..] == d[1..] + "T" + rest;
      assert d[0] in d;
      DatePartUnique(d[1..], rest);
      assert d == [d[0]] + d[1..];
    } else {
      assert (d + "T" + rest)[0] == 'T';
    }
  }

  /** Cutting twice is cutting once. */
  lemma DatePartIdempotent(s: string)
    ensures DatePart(DatePart(s)) == DatePart(s)
  {
    DatePartUnique(DatePart(s), "");
  }
}
