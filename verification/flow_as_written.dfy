/** The project-selection route exactly as its task buttons are built: the mapping callback
    reads the identifier `Cancel`, which is declared nowhere, so it throws a ReferenceError
    the first time it runs, that is, for every project that has at least one task. The
    handler then never reaches the code that stores the selection and installs the
    task-selection route. `HarvestFlow.SelectProjectStep` is the intended behaviour. */
module HarvestFlowAsWritten {
  import opened Wrappers
  import opened HarvestTypes
  import opened HarvestFlow

  /** A handler either returns after sending a reply (and maybe installing a route) or throws. */
  datatype Outcome = Returned(t: Transition) | Threw

  function SelectProjectAsWritten(st: DialogState, ev: Event): (o: Outcome)
    requires ev.Action? ==> HasProject(st.projects, ev.value)
    ensures o.Threw? <==> ev.Action? && |FindProject(st.projects, ev.value).value.tasks| > 0
    ensures o.Returned? ==> o.t == SelectProjectStep(st, ev)
  {
    match ev
    case Message(_) => Returned(Transition(Continue(SelectProject, st), MustSelectProject, None))
    case Action(v) =>
      var p := FindProject(st.projects, v).value;
      if |p.tasks| == 0 then Returned(Transition(End, NoTasks, None))
      else Threw  // tasks.map(...) evaluates `Cancel` for the first task
  }

  /** As written, no click ever reaches task selection: the conversation either stays on
      project selection or ends. The intended handler reaches task selection for every
      project that has tasks. */
  lemma AsWrittenNeverReachesTaskSelection(st: DialogState, v: Id)
    requires HasProject(st.projects, v)
    requires |FindProject(st.projects, v).value.tasks| > 0
    ensures SelectProjectAsWritten(st, Action(v)).Threw?
    ensures SelectProjectStep(st, Action(v)).next.Continue?
    ensures SelectProjectStep(st, Action(v)).next.route == SelectTask
  {
  }

  /** A concrete witness: a user assigned to one project with one task. */
  lemma OneTaskProjectThrows()
    ensures var st := NewSession([Project(7, "Website", [Task(1, "Design")])], 42);
            && HasProject(st.projects, 7)
            && SelectProjectAsWritten(st, Action(7)).Threw?
            && SelectProjectStep(st, Action(7)).next == Continue(SelectTask, st.(
                 selectedProject := Some(Project(7, "Website", [Task(1, "Design")])),
                 selectedProjectId := Some(7),
                 tasks := Some([Task(1, "Design")])))
  {
    var p := Project(7, "Website", [Task(1, "Design")]);
    var st := NewSession([p], 42);
    assert st.projects[0] == p;
    assert HasProject(st.projects, 7);
    assert FindProject(st.projects, 7) == Some(p);
    assert |p.tasks| > 0;
  }
}
