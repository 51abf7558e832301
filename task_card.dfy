/**
 * The task card: what one task renders as (its class, the archive checkbox,
 * the title field and the pin button) and which page callback each control
 * fires, with which arguments. The card holds no state of its own; it is a
 * function of the task.
 */
module TaskCard {
  import opened Wrappers
  import opened TaskStore

  /** A call of one of the three callbacks the card receives, with its arguments. */
  datatype Callback =
    | ArchiveTaskCall(id: string)
    | TogglePinTaskCall(id: string)
    | EditTitleCall(title: string, id: string)

  /** The pin button, when the card has one. */
  datatype PinButton = PinButton(elementId: string, ariaLabel: string, onClick: Callback)

  /** What a rendered card exposes. */
  datatype Card = Card(
    className: string,
    ariaLabel: string,
    checkboxChecked: bool,
    checkboxDisabled: bool,
    archiveClick: Callback,
    titleValue: string,
    pin: Option<PinButton>)

  const ClassPrefix: string := "list-item "

  /** The card for task `t`. */
  function Render(t: Task): (c: Card)
    ensures |c.className| > |ClassPrefix| && c.className[..|ClassPrefix|] == ClassPrefix
    ensures c.ariaLabel == "task-" + t.id
    ensures c.checkboxChecked <==> t.state == Archived
    ensures c.checkboxDisabled
    ensures c.archiveClick == ArchiveTaskCall(t.id)
    ensures c.titleValue == t.title
    ensures c.pin.Some? <==> t.state != Archived
    ensures c.pin.Some? ==> c.pin.value.onClick == TogglePinTaskCall(t.id)
    ensures c.pin.Some? ==> (c.pin.value.ariaLabel == "unpin" <==> t.state == Pinned)
    ensures c.pin.Some? ==> (c.pin.value.ariaLabel == "pin" <==> t.state == Inbox)
  {
    Card(
      ClassPrefix + t.state.Name(),
      "task-" + t.id,
      t.state == Archived,
      true,
      ArchiveTaskCall(t.id),
      t.title,
      if t.state != Archived then
        Some(PinButton("pinTask-" + t.id, if t.state == Pinned then "unpin" else "pin", TogglePinTaskCall(t.id)))
      else None)
  }

  /** What the title field fires when its text changes to `value`: the value first, the id second. */
  function TitleChange(t: Task, value: string): (cb: Callback)
    ensures cb.EditTitleCall? && cb.title == value && cb.id == t.id
  {
    EditTitleCall(value, t.id)
  }

  /** The state named by a `state` string, if it names one. */
  function StateFromName(name: string): (r: Option<TaskState>)
    ensures r.Some? ==> r.value.Name() == name
  {
    if name == "TASK_INBOX" then Some(Inbox)
    else if name == "TASK_PINNED" then Some(Pinned)
    else if name == "TASK_ARCHIVED" then Some(Archived)
    else None
  }

  /** The state a card's class names, if it is a card class. */
  function StateOfClass(className: string): Option<TaskState> {
    if |className| >= |ClassPrefix| && className[..|ClassPrefix|] == ClassPrefix
    then StateFromName(className[|ClassPrefix|..])
    else None
  }

  /** A card's class names exactly the task's state. */
  lemma ClassNamesState(t: Task)
    ensures StateOfClass(Render(t).className) == Some(t.state)
  {
  }

  /** The page hands the three callbacks to its handlers; each keeps the ids in place. */
  function Dispatch(tasks: seq<Task>, cb: Callback): (r: seq<Task>)
    ensures |r| == |tasks|
    ensures forall i :: 0 <= i < |tasks| ==> r[i].id == tasks[i].id
  {
    match cb
    case ArchiveTaskCall(id) => Archive(tasks, id)
    case TogglePinTaskCall(id) => TogglePin(tasks, id)
    case EditTitleCall(title, id) => EditTitle(tasks, title, id)
  }

  /** No two tasks share an id. */
  predicate UniqueIds(tasks: seq<Task>) {
    forall i, j :: 0 <= i < |tasks| && 0 <= j < |tasks| && i != j ==> tasks[i].id != tasks[j].id
  }

  /** The seeded list gives every task its own id, so the lemmas below that ask for unique ids apply to it. */
  lemma SeedIdsUnique()
    ensures UniqueIds(SeedTasks)
  {
  }

  /** Clicking a card's checkbox archives that task; its card then shows checked and no pin. */
  lemma ArchiveClickArchives(tasks: seq<Task>, k: nat)
    requires k < |tasks|
    ensures var after := Dispatch(tasks, Render(tasks[k]).archiveClick);
            |after| == |tasks| && after[k].state == Archived &&
            Render(after[k]).checkboxChecked && Render(after[k]).pin.None?
  {
  }

  /**
   * The pin button's label says what a click does: "pin" moves the task to
   * PINNED, "unpin" moves it to INBOX.
   */
  lemma PinLabelDescribesClick(tasks: seq<Task>, k: nat)
    requires k < |tasks|
    requires Render(tasks[k]).pin.Some?
    ensures var button := Render(tasks[k]).pin.value;
            var after := Dispatch(tasks, button.onClick);
            |after| == |tasks| &&
            after[k].state == (if button.ariaLabel == "unpin" then Inbox else Pinned)
  {
  }

  /**
   * The store moves an ARCHIVED task to PINNED when asked, but the card only
   * offers the pin button on tasks that are not archived; with unique ids, no
   * click on a card's pin button changes an archived task.
   */
  lemma PinClickSparesArchived(tasks: seq<Task>, k: nat)
    requires UniqueIds(tasks)
    requires k < |tasks|
    requires Render(tasks[k]).pin.Some?
    ensures var after := Dispatch(tasks, Render(tasks[k]).pin.value.onClick);
            forall j :: 0 <= j < |tasks| && tasks[j].state == Archived ==> after[j] == tasks[j]
  {
  }

  /** Without the card, the store alone does move an archived task to PINNED. */
  lemma StorePinsArchived()
    ensures var tasks := [Task("4", "done", Archived)];
            TogglePin(tasks, "4") == [Task("4", "done", Pinned)] &&
            Render(tasks[0]).pin.None?
  {
  }

  /** Typing in a card's title field sets that task's title; the re-rendered field shows it. */
  lemma TitleChangeEdits(tasks: seq<Task>, k: nat, value: string)
    requires k < |tasks|
    ensures var after := Dispatch(tasks, TitleChange(tasks[k], value));
            |after| == |tasks| && after[k].title == value && after[k].state == tasks[k].state &&
            Render(after[k]).titleValue == value
  {
  }
}
