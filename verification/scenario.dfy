/** One complete session, start to confirmation, run through the model: five projects,
    the second of which has two tasks; a first hour entry that does not parse, then 6.5.
    Project selection is the intended handler, `HarvestFlow.SelectProjectStep`. */
module HarvestScenario {
  import opened Wrappers
  import opened HarvestTypes
  import opened Hours
  import opened HarvestFlow
  import Buttons

  function Catalogue(): seq<Project> {
    [ Project(1, "Internal", []),
      Project(2, "Website", [Task(21, "Design"), Task(22, "Build")]),
      Project(3, "Mobile app", [Task(31, "Build")]),
      Project(4, "Support", [Task(41, "Tickets")]),
      Project(5, "Research", [Task(51, "Reading")]) ]
  }

  /** Stands for `parseFloat` on the two texts the user sends. */
  function ParseFloat(text: string): ParsedNumber {
    if text == "6.5" then Finite(6.5) else NaN
  }

  /** The state after each successful click. */
  function AfterStart(): DialogState {
    NewSession(Catalogue(), 42)
  }

  function AfterProject(): DialogState {
    AfterStart().(selectedProject := Some(Catalogue()[1]), selectedProjectId := Some(2),
                  tasks := Some(Catalogue()[1].tasks))
  }

  function AfterTask(): DialogState {
    AfterProject().(selectedTaskId := Some(21), selectedTask := Some(Task(21, "Design")))
  }

  function Turns(): seq<Turn> {
    [Turn(Action(2), true), Turn(Action(21), true), Turn(Message("abc"), true)]
  }

  /** The email resolves to Harvest user 42 and the five projects are offered. */
  lemma ScenarioStarts()
    ensures StartSession(Some("ann@example.com"), Some([User(42, "ann@example.com")]), Some(Catalogue()))
         == Transition(Continue(SelectProject, AfterStart()), AskProject(Buttons.ButtonsForProjects(Catalogue())), None)
  {
  }

  /** Clicking project 2 and then task 21 reaches hour input; "abc" re-prompts there. */
  lemma ScenarioReachesHourInput()
    ensures Run(SelectProject, AfterStart(), Turns(), ParseFloat) == Some(Continue(HourInput, AfterTask()))
  {
    var ps := Catalogue();
    assert ps[1].id == 2;
    assert FindProject(ps, 2) == Some(ps[1]);
    assert Step(SelectProject, AfterStart(), Action(2), ParseFloat, true).next == Continue(SelectTask, AfterProject());
    assert ps[1].tasks[0].id == 21;
    assert FindTask(ps[1].tasks, 21) == Some(Task(21, "Design"));
    assert Step(SelectTask, AfterProject(), Action(21), ParseFloat, true).next == Continue(HourInput, AfterTask());
    assert Step(HourInput, AfterTask(), Message("abc"), ParseFloat, true).next == Continue(HourInput, AfterTask());
    var turns := Turns();
    assert Run(SelectTask, AfterProject(), turns[1..], ParseFloat) == Run(HourInput, AfterTask(), turns[2..], ParseFloat);
    assert turns[2..][1..] == [];
  }

  /** Sending "6.5" on hour input posts 6.5 hours for project 2 and task 21, confirms, and
      offers the same five projects again on project selection. */
  lemma ScenarioLogs()
    ensures var t := Step(HourInput, AfterTask(), Message("6.5"), ParseFloat, true);
            && t.posted == Some(Entry(42, Some(2), Some(21), 6.5))
            && t.reply == Logged(6.5, Catalogue()[1], Buttons.ButtonsForProjects(Catalogue()))
            && t.next == Continue(SelectProject, AfterTask())
  {
  }
}
