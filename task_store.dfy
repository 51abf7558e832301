/**
 * The task list of the task page: an ordered sequence of task records, the
 * four handlers that each return a whole new list, and the three views that
 * split the list by state.
 *
 * Every handler is a `map` over the list that rewrites the tasks whose id
 * matches and keeps the others, or an append; nothing is changed in place.
 */
module TaskStore {
  import Decimal

  /** The three values of a task's `state` field. */
  datatype TaskState = Inbox | Pinned | Archived {

    /** The string the page stores in `state` (and the card puts in its class). */
    function Name(): (s: string)
      ensures |s| > 5 && s[..5] == "TASK_"
    {
      match this
      case Inbox => "TASK_INBOX"
      case Pinned => "TASK_PINNED"
      case Archived => "TASK_ARCHIVED"
    }
  }

  datatype Task = Task(id: string, title: string, state: TaskState)

  /** The list the page starts with. */
  const SeedTasks: seq<Task> := [
    Task("1", "学习 React 基础", Inbox),
    Task("2", "构建组件库", Pinned),
    Task("3", "编写测试用例", Inbox),
    Task("4", "完成项目文档", Archived),
    Task("5", "代码审查", Pinned)
  ]

  /** No task in the list carries `id`. */
  predicate UnknownId(tasks: seq<Task>, id: string) {
    forall i :: 0 <= i < |tasks| ==> tasks[i].id != id
  }

  /** The ids of the list, in list order. */
  function Ids(tasks: seq<Task>): (r: seq<string>)
    ensures |r| == |tasks|
    ensures forall i :: 0 <= i < |tasks| ==> r[i] == tasks[i].id
  {
    if tasks == [] then [] else [tasks[0].id] + Ids(tasks[1..])
  }

  // ---------------------------------------------------------------------
  // The four handlers
  // ---------------------------------------------------------------------

  /**
   * handleArchiveTask: every task whose id matches gets state TASK_ARCHIVED,
   * keeping its id and title; every other task is returned as it was.
   */
  function Archive(tasks: seq<Task>, id: string): (r: seq<Task>)
    ensures |r| == |tasks|
    ensures forall i :: 0 <= i < |tasks| && tasks[i].id != id ==> r[i] == tasks[i]
    ensures forall i :: 0 <= i < |tasks| && tasks[i].id == id ==>
              r[i] == Task(id, tasks[i].title, Archived)
  {
    if tasks == [] then []
    else
      var t := tasks[0];
      [if t.id == id then t.(state := Archived) else t] + Archive(tasks[1..], id)
  }

  /** The state a pin toggle moves a task to: PINNED goes to INBOX, anything else to PINNED. */
  function Toggled(s: TaskState): (r: TaskState)
    ensures r != Archived
    ensures r == Inbox <==> s == Pinned
  {
    if s == Pinned then Inbox else Pinned
  }

  /**
   * handleTogglePinTask: every task whose id matches moves PINNED -> INBOX,
   * and INBOX or ARCHIVED -> PINNED; every other task is returned as it was.
   */
  function TogglePin(tasks: seq<Task>, id: string): (r: seq<Task>)
    ensures |r| == |tasks|
    ensures forall i :: 0 <= i < |tasks| && tasks[i].id != id ==> r[i] == tasks[i]
    ensures forall i :: 0 <= i < |tasks| && tasks[i].id == id ==>
              r[i].id == id && r[i].title == tasks[i].title &&
              (r[i].state == Inbox <==> tasks[i].state == Pinned) &&
              (r[i].state == Pinned <==> tasks[i].state != Pinned)
  {
    if tasks == [] then []
    else
      var t := tasks[0];
      [if t.id == id then t.(state := Toggled(t.state)) else t] + TogglePin(tasks[1..], id)
  }

  /**
   * handleEditTitle(title, id): every task whose id matches takes `title`
   * verbatim (no trimming, the empty string included), keeping its id and
   * state; every other task is returned as it was.
   */
  function EditTitle(tasks: seq<Task>, title: string, id: string): (r: seq<Task>)
    ensures |r| == |tasks|
    ensures forall i :: 0 <= i < |tasks| && tasks[i].id != id ==> r[i] == tasks[i]
    ensures forall i :: 0 <= i < |tasks| && tasks[i].id == id ==>
              r[i] == Task(id, title, tasks[i].state)
  {
    if tasks == [] then []
    else
      var t := tasks[0];
      [if t.id == id then t.(title := title) else t] + EditTitle(tasks[1..], title, id)
  }

  /** The fixed text in front of the number in a new task's title. */
  const NewTaskPrefix: string := "新任务 "

  /**
   * handleAddTask: one INBOX task is appended, titled with the prefix and the
   * new length of the list. Its id comes from the clock in the page; here the
   * caller supplies it, and nothing is assumed about its uniqueness.
   */
  function AddTask(tasks: seq<Task>, newId: string): (r: seq<Task>)
    ensures |r| == |tasks| + 1
    ensures r[..|tasks|] == tasks
    ensures r[|tasks|].id == newId && r[|tasks|].state == Inbox
    ensures |r[|tasks|].title| > |NewTaskPrefix| && r[|tasks|].title[..|NewTaskPrefix|] == NewTaskPrefix
  {
    tasks + [Task(newId, NewTaskPrefix + Decimal.NatToDecimal(|tasks| + 1), Inbox)]
  }

  // ---------------------------------------------------------------------
  // The three views
  // ---------------------------------------------------------------------

  /** `tasks.filter(t => t.state === s)`: the tasks in state `s`, in list order. */
  function Filter(tasks: seq<Task>, s: TaskState): (r: seq<Task>)
    ensures |r| <= |tasks|
  {
    if tasks == [] then []
    else (if tasks[0].state == s then [tasks[0]] else []) + Filter(tasks[1..], s)
  }

  /** A view holds only tasks of its state. */
  lemma {:induction false} FilterKeepsState(tasks: seq<Task>, s: TaskState)
    ensures forall i :: 0 <= i < |Filter(tasks, s)| ==> Filter(tasks, s)[i].state == s
  {
    if tasks != [] {
      FilterKeepsState(tasks[1..], s);
    }
  }

  /** The inbox view: the TASK_INBOX tasks, in list order. */
  function InboxTasks(tasks: seq<Task>): (r: seq<Task>)
    ensures IsSubsequence(r, tasks)
    ensures forall i :: 0 <= i < |r| ==> r[i].state == Inbox
  {
    FilterIsSubsequence(tasks, Inbox);
    FilterKeepsState(tasks, Inbox);
    Filter(tasks, Inbox)
  }

  /** The pinned view: the TASK_PINNED tasks, in list order. */
  function PinnedTasks(tasks: seq<Task>): (r: seq<Task>)
    ensures IsSubsequence(r, tasks)
    ensures forall i :: 0 <= i < |r| ==> r[i].state == Pinned
  {
    FilterIsSubsequence(tasks, Pinned);
    FilterKeepsState(tasks, Pinned);
    Filter(tasks, Pinned)
  }

  /** The archived view: the TASK_ARCHIVED tasks, in list order. */
  function ArchivedTasks(tasks: seq<Task>): (r: seq<Task>)
    ensures IsSubsequence(r, tasks)
    ensures forall i :: 0 <= i < |r| ==> r[i].state == Archived
  {
    FilterIsSubsequence(tasks, Archived);
    FilterKeepsState(tasks, Archived);
    Filter(tasks, Archived)
  }

  /** The position of a state's section on the page: pinned first, then inbox, then archived. */
  function SectionRank(s: TaskState): (k: nat)
    ensures k < 3
  {
    match s
    case Pinned => 0
    case Inbox => 1
    case Archived => 2
  }

  /**
   * The page lists the pinned section first, then the inbox, then the
   * archive: a reordering of the list that sorts it by section and keeps the
   * list order within each section.
   */
  function DisplayOrder(tasks: seq<Task>): (r: seq<Task>)
    ensures multiset(r) == multiset(tasks)
    ensures forall i, j :: 0 <= i < j < |r| ==> SectionRank(r[i].state) <= SectionRank(r[j].state)
    ensures forall s :: Filter(r, s) == Filter(tasks, s)
  {
    PartitionIsPermutation(tasks);
    var p, n, a := PinnedTasks(tasks), InboxTasks(tasks), ArchivedTasks(tasks);
    SectionsSorted(p, n, a);
    SectionsFilter(tasks);
    p + n + a
  }

  /** Three runs of pinned, inbox and archived tasks, joined in that order, are sorted by section. */
  lemma SectionsSorted(p: seq<Task>, n: seq<Task>, a: seq<Task>)
    requires forall i :: 0 <= i < |p| ==> p[i].state == Pinned
    requires forall i :: 0 <= i < |n| ==> n[i].state == Inbox
    requires forall i :: 0 <= i < |a| ==> a[i].state == Archived
    ensures var r := p + n + a;
            forall i, j :: 0 <= i < j < |r| ==> SectionRank(r[i].state) <= SectionRank(r[j].state)
  {
    var r := p + n + a;
    forall i, j | 0 <= i < j < |r|
      ensures SectionRank(r[i].state) <= SectionRank(r[j].state)
    {
      if j < |p| {
        assert r[i] == p[i] && r[j] == p[j];
      } else if j < |p| + |n| {
        assert r[j] == n[j - |p|];
        if i >= |p| { assert r[i] == n[i - |p|]; } else { assert r[i] == p[i]; }
      } else {
        assert r[j] == a[j - |p| - |n|];
      }
    }
  }

  /** Filtering distributes over concatenation. */
  lemma {:induction false} FilterAppend(x: seq<Task>, y: seq<Task>, s: TaskState)
    ensures Filter(x + y, s) == Filter(x, s) + Filter(y, s)
  {
    if x == [] {
      assert x + y == y;
    } else {
      var t, rest := x[0], x[1..];
      assert x == [t] + rest;
      assert x + y == [t] + (rest + y);
      FilterAppend(rest, y, s);
      FilterCons(t, rest + y, s);
      FilterCons(t, rest, s);
    }
  }

  /** Filtering a run of tasks all in state `v` keeps all of it or nothing. */
  lemma {:induction false} FilterUniform(x: seq<Task>, v: TaskState, s: TaskState)
    requires forall i :: 0 <= i < |x| ==> x[i].state == v
    ensures Filter(x, s) == (if v == s then x else [])
  {
    if x != [] {
      FilterUniform(x[1..], v, s);
      assert x == [x[0]] + x[1..];
    }
  }

  /** Each state's tasks in the display order are that state's view of the list. */
  lemma SectionsFilter(tasks: seq<Task>)
    ensures var r := PinnedTasks(tasks) + InboxTasks(tasks) + ArchivedTasks(tasks);
            forall s :: Filter(r, s) == Filter(tasks, s)
  {
    var p, n, a := PinnedTasks(tasks), InboxTasks(tasks), ArchivedTasks(tasks);
    forall s ensures Filter(p + n + a, s) == Filter(tasks, s) {
      FilterAppend(p + n, a, s);
      FilterAppend(p, n, s);
      FilterUniform(p, Pinned, s);
      FilterUniform(n, Inbox, s);
      FilterUniform(a, Archived, s);
      match s
      case Pinned => assert Filter(p + n + a, s) == p + [] + [];
      case Inbox => assert Filter(p + n + a, s) == [] + n + [];
      case Archived => assert Filter(p + n + a, s) == [] + [] + a;
    }
  }

  /** `sub` is `s` with some elements dropped and the rest kept in order. */
  predicate IsSubsequence(sub: seq<Task>, s: seq<Task>)
    decreases |s|
  {
    if sub == [] then true
    else if s == [] then false
    else if sub[0] == s[0] then IsSubsequence(sub[1..], s[1..])
    else IsSubsequence(sub, s[1..])
  }

  /** The tasks whose id is not `id`, in list order. */
  function WithoutId(tasks: seq<Task>, id: string): (r: seq<Task>)
    ensures |r| <= |tasks|
    ensures forall i :: 0 <= i < |r| ==> r[i].id != id
    ensures forall t :: t in r <==> t in tasks && t.id != id
  {
    if tasks == [] then []
    else (if tasks[0].id != id then [tasks[0]] else []) + WithoutId(tasks[1..], id)
  }

  // ---------------------------------------------------------------------
  // Properties of the handlers
  // ---------------------------------------------------------------------

  /** Archiving the same id twice is the same as archiving it once. */
  lemma ArchiveIdempotent(tasks: seq<Task>, id: string)
    ensures Archive(Archive(tasks, id), id) == Archive(tasks, id)
  {
  }

  /** Two pin toggles restore a task that was INBOX or PINNED. */
  lemma TogglePinTwiceRestores(tasks: seq<Task>, id: string)
    requires forall i :: 0 <= i < |tasks| && tasks[i].id == id ==> tasks[i].state != Archived
    ensures TogglePin(TogglePin(tasks, id), id) == tasks
  {
  }

  /** Two pin toggles send an ARCHIVED task to INBOX, not back to ARCHIVED. */
  lemma TogglePinTwiceUnarchives(tasks: seq<Task>, id: string)
    ensures forall i :: 0 <= i < |tasks| && tasks[i].id == id && tasks[i].state == Archived ==>
              TogglePin(TogglePin(tasks, id), id)[i] == Task(id, tasks[i].title, Inbox)
  {
  }

  /** A handler given an id that no task has returns the list unchanged. */
  lemma UnknownIdIsNoOp(tasks: seq<Task>, id: string, title: string)
    requires UnknownId(tasks, id)
    ensures Archive(tasks, id) == tasks
    ensures TogglePin(tasks, id) == tasks
    ensures EditTitle(tasks, title, id) == tasks
  {
  }

  /** The three editing handlers keep the ids in the same order. */
  lemma HandlersPreserveIds(tasks: seq<Task>, id: string, title: string)
    ensures Ids(Archive(tasks, id)) == Ids(tasks)
    ensures Ids(TogglePin(tasks, id)) == Ids(tasks)
    ensures Ids(EditTitle(tasks, title, id)) == Ids(tasks)
  {
  }

  /** The number in a new task's title reads back as the new length of the list. */
  lemma AddTaskTitleNumber(tasks: seq<Task>, newId: string)
    ensures var title := AddTask(tasks, newId)[|tasks|].title;
            |title| > |NewTaskPrefix| &&
            (forall i :: |NewTaskPrefix| <= i < |title| ==> Decimal.IsDigit(title[i])) &&
            (|title| > |NewTaskPrefix| + 1 ==> title[|NewTaskPrefix|] != '0') &&
            Decimal.DecimalValue(title[|NewTaskPrefix|..]) == |tasks| + 1
  {
    var digits := Decimal.NatToDecimal(|tasks| + 1);
    var title := AddTask(tasks, newId)[|tasks|].title;
    assert title[|NewTaskPrefix|..] == digits;
    Decimal.DecimalRoundTrip(|tasks| + 1);
  }

  /** Adding twice gives the two new tasks different titles. */
  lemma AddTaskTitlesDiffer(tasks: seq<Task>, id1: string, id2: string)
    ensures var once := AddTask(tasks, id1);
            AddTask(once, id2)[|tasks|].title != AddTask(once, id2)[|tasks| + 1].title
  {
    var once := AddTask(tasks, id1);
    var twice := AddTask(once, id2);
    AddTaskTitleNumber(tasks, id1);
    AddTaskTitleNumber(once, id2);
    assert twice[|tasks|] == once[|tasks|];
  }

  // ---------------------------------------------------------------------
  // Properties of the views
  // ---------------------------------------------------------------------

  /** A view keeps the tasks of its state in the order the list has them. */
  lemma {:induction false} FilterIsSubsequence(tasks: seq<Task>, s: TaskState)
    ensures IsSubsequence(Filter(tasks, s), tasks)
  {
    if tasks != [] {
      FilterIsSubsequence(tasks[1..], s);
      if tasks[0].state == s {
        assert Filter(tasks, s)[1..] == Filter(tasks[1..], s);
      } else {
        assert Filter(tasks, s) == Filter(tasks[1..], s);
        FilterKeepsState(tasks[1..], s);
      }
    }
  }

  lemma FilterCons(t: Task, rest: seq<Task>, s: TaskState)
    ensures Filter([t] + rest, s) == (if t.state == s then [t] else []) + Filter(rest, s)
  {
  }

  lemma WithoutIdCons(t: Task, rest: seq<Task>, id: string)
    ensures WithoutId([t] + rest, id) == (if t.id != id then [t] else []) + WithoutId(rest, id)
  {
  }

  lemma FilterConsMultiset(t: Task, rest: seq<Task>, s: TaskState)
    ensures multiset(Filter([t] + rest, s))
            == (if t.state == s then multiset{t} else multiset{}) + multiset(Filter(rest, s))
  {
  }

  /** The three views hold every task of the list exactly once, and nothing else. */
  lemma {:induction false} PartitionIsPermutation(tasks: seq<Task>)
    ensures multiset(Filter(tasks, Pinned)) + multiset(Filter(tasks, Inbox)) + multiset(Filter(tasks, Archived))
            == multiset(tasks)
  {
    if tasks != [] {
      var t, rest := tasks[0], tasks[1..];
      PartitionIsPermutation(rest);
      assert tasks == [t] + rest;
      assert multiset(tasks) == multiset{t} + multiset(rest);
      FilterConsMultiset(t, rest, Pinned);
      FilterConsMultiset(t, rest, Inbox);
      FilterConsMultiset(t, rest, Archived);
      match t.state
      case Pinned =>
      case Inbox =>
      case Archived =>
    }
  }

  /** The page's three counts add up to the length of the list. */
  lemma PartitionCounts(tasks: seq<Task>)
    ensures |PinnedTasks(tasks)| + |InboxTasks(tasks)| + |ArchivedTasks(tasks)| == |tasks|
  {
    PartitionIsPermutation(tasks);
    assert |multiset(tasks)| == |tasks|;
  }

  /** No task appears in two views. */
  lemma PartitionDisjoint(tasks: seq<Task>, a: TaskState, b: TaskState)
    requires a != b
    ensures multiset(Filter(tasks, a)) !! multiset(Filter(tasks, b))
  {
    FilterKeepsState(tasks, a);
    FilterKeepsState(tasks, b);
    forall t | t in multiset(Filter(tasks, a)) ensures t !in multiset(Filter(tasks, b)) {
      var i :| 0 <= i < |Filter(tasks, a)| && Filter(tasks, a)[i] == t;
    }
  }

  /**
   * After archiving, the inbox and pinned views are the old ones with the
   * archived id removed, in the same order.
   */
  lemma {:induction false} ArchiveViews(tasks: seq<Task>, id: string)
    ensures InboxTasks(Archive(tasks, id)) == WithoutId(InboxTasks(tasks), id)
    ensures PinnedTasks(Archive(tasks, id)) == WithoutId(PinnedTasks(tasks), id)
  {
    if tasks != [] {
      var t, rest := tasks[0], tasks[1..];
      ArchiveViews(rest, id);
      var after := Archive(tasks, id);
      assert tasks == [t] + rest;
      assert after == [after[0]] + Archive(rest, id);
      FilterCons(after[0], Archive(rest, id), Inbox);
      FilterCons(after[0], Archive(rest, id), Pinned);
      FilterCons(t, rest, Inbox);
      FilterCons(t, rest, Pinned);
      WithoutIdCons(t, InboxTasks(rest), id);
      WithoutIdCons(t, PinnedTasks(rest), id);
      if t.state == Inbox {
        assert InboxTasks(tasks) == [t] + InboxTasks(rest);
      } else {
        assert InboxTasks(tasks) == InboxTasks(rest);
      }
      if t.state == Pinned {
        assert PinnedTasks(tasks) == [t] + PinnedTasks(rest);
      } else {
        assert PinnedTasks(tasks) == PinnedTasks(rest);
      }
      if t.id == id {
        assert after[0].state == Archived;
        assert InboxTasks(after) == InboxTasks(Archive(rest, id));
        assert PinnedTasks(after) == PinnedTasks(Archive(rest, id));
      } else {
        assert after[0] == t;
      }
    }
  }

  /** The seeded page shows two inbox, two pinned and one archived task. */
  lemma SeedCounts()
    ensures |InboxTasks(SeedTasks)| == 2
    ensures |PinnedTasks(SeedTasks)| == 2
    ensures |ArchivedTasks(SeedTasks)| == 1
  {
  }

  /**
   * Archiving task "1" of [1 INBOX, 2 PINNED] leaves it archived in place and
   * splits the list into pinned [2], inbox [] and archived [1].
   */
  lemma ArchiveScenario()
    ensures var tasks := [Task("1", "A", Inbox), Task("2", "B", Pinned)];
            var after := Archive(tasks, "1");
            after == [Task("1", "A", Archived), Task("2", "B", Pinned)] &&
            PinnedTasks(after) == [Task("2", "B", Pinned)] &&
            InboxTasks(after) == [] &&
            ArchivedTasks(after) == [Task("1", "A", Archived)]
  {
    var tasks := [Task("1", "A", Inbox), Task("2", "B", Pinned)];
    var after := Archive(tasks, "1");
    assert after == [Task("1", "A", Archived)] + ([Task("2", "B", Pinned)] + []);
    FilterCons(Task("2", "B", Pinned), [], Pinned);
    FilterCons(Task("2", "B", Pinned), [], Inbox);
    FilterCons(Task("2", "B", Pinned), [], Archived);
    FilterCons(Task("1", "A", Archived), [Task("2", "B", Pinned)], Pinned);
    FilterCons(Task("1", "A", Archived), [Task("2", "B", Pinned)], Inbox);
    FilterCons(Task("1", "A", Archived), [Task("2", "B", Pinned)], Archived);
  }
}
