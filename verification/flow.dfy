/** The conversational routing of the Harvest bot as a pure state machine. A turn takes the
    route the conversation is parked on, the state object stored with it and the inbound
    Slack event, and yields the next route (or the end of the conversation), the next state,
    the kind of reply sent and the hour entry posted to Harvest, if any. The outcomes of
    the Slack and Harvest calls are inputs. */
module HarvestFlow {
  import opened Wrappers
  import opened HarvestTypes
  import opened Hours
  import Seqs
  import Buttons
  import UserLookup

  /** The kinds of message the bot sends; wording and layout are abstracted away. */
  datatype Reply =
    | AskProject(buttons: seq<Button>)                     // "Log hours for which project?"
    | AccountNotFound(email: string)                       // email not found in Harvest
    | SomethingWentWrong                                   // any other failure at session start
    | MustSelectProject
    | MustSelectTask
    | NoTasks                                              // "There are no tasks for this project"
    | AskTask(project: Project)                            // task choice for the selected project
    | AskHours(task: Task, project: Project)
    | InvalidNumber                                        // "Please enter a valid numeric character"
    | HoursNotPositive                                     // "You must enter more than 0 hours"
    | HoursOverADay                                        // "You can't enter more than 24 hours"
    | Logged(hours: real, project: Project, buttons: seq<Button>)
    | NoReply                                              // the failure is only written to the console

  /** The body of the POST to Harvest's `/daily/add`: user, project, task and hours. */
  datatype Entry = Entry(userId: int, projectId: Option<Id>, taskId: Option<Id>, hours: real)

  /** Either a route is installed with a state object, or none is and the conversation ends. */
  datatype Next = Continue(route: Route, state: DialogState) | End

  datatype Transition = Transition(next: Next, reply: Reply, posted: Option<Entry>)

  /** The state installed when a session starts. */
  function NewSession(projects: seq<Project>, harvestUserId: int): DialogState {
    DialogState(projects, harvestUserId, None, None, None, None, None)
  }

  predicate HasProject(ps: seq<Project>, id: Id) {
    exists i :: 0 <= i < |ps| && ps[i].id == id
  }

  predicate HasTask(ts: seq<Task>, id: Id) {
    exists i :: 0 <= i < |ts| && ts[i].id == id
  }

  predicate ProjectHasId(id: Id, p: Project) {
    p.id == id
  }

  predicate TaskHasId(id: Id, t: Task) {
    t.id == id
  }

  /** `_.find(projects, project => project.id == selectedProjectId)`. */
  function FindProject(ps: seq<Project>, id: Id): (r: Option<Project>)
    ensures r.Some? <==> HasProject(ps, id)
    ensures r.Some? ==> r.value.id == id && r.value in ps
    ensures r.Some? ==> exists i :: 0 <= i < |ps| && ps[i] == r.value && forall j :: 0 <= j < i ==> ps[j].id != id
  {
    Seqs.Find(ps, p => ProjectHasId(id, p))
  }

  /** `_.find(tasks, task => task.id == selectedTaskId)`. */
  function FindTask(ts: seq<Task>, id: Id): (r: Option<Task>)
    ensures r.Some? <==> HasTask(ts, id)
    ensures r.Some? ==> r.value.id == id && r.value in ts
    ensures r.Some? ==> exists i :: 0 <= i < |ts| && ts[i] == r.value && forall j :: 0 <= j < i ==> ts[j].id != id
  {
    Seqs.Find(ts, t => TaskHasId(id, t))
  }

  /** The `'log'` trigger. `email` is the Slack profile email (`None`: the Slack call
      reported an error; a profile without an email is `Some` of an email nobody in Harvest
      has, since the lookup then compares against `undefined`), `users` the Harvest people
      listing and `projects` the user's project listing (`None`: the request reported an
      error, or the decoded body has no `projects` array). A user id that is missing, or is
      0 and so falsy, rejects with the not-found message; the project listing is only
      consulted once an id is known. */
  function StartSession(email: Option<string>, users: Option<seq<User>>, projects: Option<seq<Project>>): (t: Transition)
    ensures t.posted.None?
    ensures email.None? || users.None? ==> t == Transition(End, SomethingWentWrong, None)
    ensures email.Some? && users.Some? && UserLookup.HarvestUserIdWithEmail(users.value, email.value) in {None, Some(0)}
            ==> t == Transition(End, AccountNotFound(email.value), None)
    ensures email.Some? && users.Some? && projects.None?
            && UserLookup.HarvestUserIdWithEmail(users.value, email.value) !in {None, Some(0)}
            ==> t == Transition(End, SomethingWentWrong, None)
    ensures t.next.Continue? <==>
              email.Some? && users.Some? && projects.Some?
              && UserLookup.HarvestUserIdWithEmail(users.value, email.value) !in {None, Some(0)}
    ensures t.next.Continue? ==>
              && t.next.route == SelectProject
              && UserLookup.HarvestUserIdWithEmail(users.value, email.value) == Some(t.next.state.harvestUserId)
              && t.next.state == NewSession(projects.value, t.next.state.harvestUserId)
              && t.reply == AskProject(Buttons.ButtonsForProjects(projects.value))
  {
    match (email, users)
    case (Some(e), Some(us)) =>
      var id := UserLookup.HarvestUserIdWithEmail(us, e);
      if id.None? || id.value == 0 then Transition(End, AccountNotFound(e), None)
      else if projects.None? then Transition(End, SomethingWentWrong, None)
      else
        Transition(Continue(SelectProject, NewSession(projects.value, id.value)),
                   AskProject(Buttons.ButtonsForProjects(projects.value)), None)
    case _ => Transition(End, SomethingWentWrong, None)
  }

  /** The project-selection route. Anything but a button click re-prompts on the same route
      with the same state. A click selects the first project with the clicked id: with no
      tasks the conversation ends with a notice; otherwise the selection is added to the
      state and the conversation moves to task selection. */
  function SelectProjectStep(st: DialogState, ev: Event): (t: Transition)
    requires ev.Action? ==> HasProject(st.projects, ev.value)
    ensures t.posted.None?
    ensures ev.Message? ==> t == Transition(Continue(SelectProject, st), MustSelectProject, None)
    ensures ev.Action? ==>
              var p := FindProject(st.projects, ev.value).value;
              && (|p.tasks| == 0 ==> t == Transition(End, NoTasks, None))
              && (|p.tasks| > 0 ==>
                    && t.next.Continue?
                    && t.next.route == SelectTask
                    && t.reply == AskTask(p)
                    && t.next.state.selectedProject == Some(p)
                    && t.next.state.selectedProjectId == Some(ev.value)
                    && t.next.state.tasks == Some(p.tasks)
                    && t.next.state.projects == st.projects
                    && t.next.state.harvestUserId == st.harvestUserId
                    && t.next.state.selectedTaskId == st.selectedTaskId
                    && t.next.state.selectedTask == st.selectedTask)
  {
    match ev
    case Message(_) => Transition(Continue(SelectProject, st), MustSelectProject, None)
    case Action(v) =>
      var p := FindProject(st.projects, v).value;
      if |p.tasks| == 0 then Transition(End, NoTasks, None)
      else
        var enriched := st.(selectedProject := Some(p), selectedProjectId := Some(v), tasks := Some(p.tasks));
        Transition(Continue(SelectTask, enriched), AskTask(p), None)
  }

  /** The task-selection route. Anything but a button click re-prompts on the same route
      with the same state. A click selects the first task with the clicked id, adds it to
      the state and moves to hour input. */
  function SelectTaskStep(st: DialogState, ev: Event): (t: Transition)
    requires ev.Action? ==> st.selectedProject.Some? && st.tasks.Some? && HasTask(st.tasks.value, ev.value)
    ensures t.posted.None?
    ensures ev.Message? ==> t == Transition(Continue(SelectTask, st), MustSelectTask, None)
    ensures ev.Action? ==>
              var task := FindTask(st.tasks.value, ev.value).value;
              && t.next.Continue?
              && t.next.route == HourInput
              && t.reply == AskHours(task, st.selectedProject.value)
              && t.next.state.selectedTask == Some(task)
              && t.next.state.selectedTaskId == Some(ev.value)
              && t.next.state.projects == st.projects
              && t.next.state.harvestUserId == st.harvestUserId
              && t.next.state.selectedProject == st.selectedProject
              && t.next.state.selectedProjectId == st.selectedProjectId
              && t.next.state.tasks == st.tasks
  {
    match ev
    case Message(_) => Transition(Continue(SelectTask, st), MustSelectTask, None)
    case Action(v) =>
      var task := FindTask(st.tasks.value, v).value;
      Transition(Continue(HourInput, st.(selectedTaskId := Some(v), selectedTask := Some(task))),
                 AskHours(task, st.selectedProject.value), None)
  }

  /** The hour-input route. `parseFloat` stands for JavaScript's `parseFloat` applied to the
      message text. `submitOk` is false only when the request library reports a transport
      error for the POST to Harvest; a POST Harvest answers with an error status still
      counts as a success and is confirmed as logged. Every rejection
      re-prompts on the same route with the same state; an entry is posted only for
      0 < hours <= 24. After a successful post the conversation returns to project selection
      with the very same state, so the project list shown again is the one fetched at the
      start; after a failed one no route is installed. */
  function HourInputStep(st: DialogState, ev: Event, parseFloat: string -> ParsedNumber, submitOk: bool): (t: Transition)
    requires ev.Message?
    ensures var n := parseFloat(ev.text);
            n == NaN || n == Finite(0.0) ==> t == Transition(Continue(HourInput, st), InvalidNumber, None)
    ensures var n := parseFloat(ev.text);
            n == NegativeInfinity || (n.Finite? && n.value < 0.0) ==> t == Transition(Continue(HourInput, st), HoursNotPositive, None)
    ensures var n := parseFloat(ev.text);
            n == PositiveInfinity || (n.Finite? && n.value > 24.0) ==> t == Transition(Continue(HourInput, st), HoursOverADay, None)
    ensures var n := parseFloat(ev.text);
            t.posted.Some? <==> n.Finite? && 0.0 < n.value <= 24.0
    ensures t.posted.Some? ==>
              && t.posted.value == Entry(st.harvestUserId, st.selectedProjectId, st.selectedTaskId, parseFloat(ev.text).value)
              && (submitOk && st.selectedProject.Some? ==>
                    t.next == Continue(SelectProject, st)
                    && t.reply == Logged(t.posted.value.hours, st.selectedProject.value, Buttons.ButtonsForProjects(st.projects)))
              && (!submitOk ==> t.next == End && t.reply == NoReply)
              && (st.selectedProject.None? ==> t.next == End && t.reply == NoReply)
  {
    match ValidateHours(parseFloat(ev.text))
    case NotNumeric => Transition(Continue(HourInput, st), InvalidNumber, None)
    case NotMoreThanZero => Transition(Continue(HourInput, st), HoursNotPositive, None)
    case MoreThan24 => Transition(Continue(HourInput, st), HoursOverADay, None)
    case Accepted(h) =>
      var entry := Entry(st.harvestUserId, st.selectedProjectId, st.selectedTaskId, h);
      if submitOk && st.selectedProject.Some? then
        Transition(Continue(SelectProject, st),
                   Logged(h, st.selectedProject.value, Buttons.ButtonsForProjects(st.projects)), Some(entry))
      else
        // a failed POST, or the confirmation throwing inside the promise chain: both end in
        // the chain's catch, which only writes to the console
        Transition(End, NoReply, Some(entry))
  }

  /** The cases the handlers survive: a click must carry an id the captured list holds (and
      task selection also reads the selected project's name), and the hour-input route reads
      the event's text. Outside these the source throws. */
  predicate Defined(route: Route, st: DialogState, ev: Event) {
    match route
    case SelectProject => ev.Action? ==> HasProject(st.projects, ev.value)
    case SelectTask => ev.Action? ==> st.selectedProject.Some? && st.tasks.Some? && HasTask(st.tasks.value, ev.value)
    case HourInput => ev.Message?
  }

  /** One turn of a conversation parked on `route`: slapp hands the event and the stored
      state to that route's handler. */
  function Step(route: Route, st: DialogState, ev: Event, parseFloat: string -> ParsedNumber, submitOk: bool): (t: Transition)
    requires Defined(route, st, ev)
    ensures route != HourInput ==> t.posted.None?
    ensures route != HourInput && ev.Message? ==> t.next == Continue(route, st)
    ensures t.next.Continue? && t.next.route == route ==> t.next.state == st
    ensures t.next.Continue? ==> t.next.state.projects == st.projects && t.next.state.harvestUserId == st.harvestUserId
  {
    match route
    case SelectProject => SelectProjectStep(st, ev)
    case SelectTask => SelectTaskStep(st, ev)
    case HourInput => HourInputStep(st, ev, parseFloat, submitOk)
  }

  /** The selected project is one of the captured projects, has tasks, and the `tasks` and
      `selectedProjectId` fields agree with it. */
  predicate ProjectChoiceConsistent(st: DialogState) {
    st.selectedProject.Some? ==>
      && st.selectedProject.value in st.projects
      && |st.selectedProject.value.tasks| > 0
      && st.tasks == Some(st.selectedProject.value.tasks)
      && st.selectedProjectId == Some(st.selectedProject.value.id)
  }

  /** A selected task is one of the selected project's tasks and `selectedTaskId` agrees. */
  predicate TaskChoiceConsistent(st: DialogState) {
    st.selectedTask.Some? ==>
      && st.selectedProject.Some?
      && st.tasks.Some?
      && st.selectedTask.value in st.tasks.value
      && st.selectedTaskId == Some(st.selectedTask.value.id)
  }

  /** What holds of the state stored with each route. On task selection a task chosen in an
      earlier round may still be in the state (the handlers only add fields), so the task
      part is not required there. */
  predicate Inv(route: Route, st: DialogState) {
    && ProjectChoiceConsistent(st)
    && match route
       case SelectProject => TaskChoiceConsistent(st)
       case SelectTask => st.selectedProject.Some?
       case HourInput => st.selectedTask.Some? && TaskChoiceConsistent(st)
  }

  /** A session that starts is parked on project selection with a state meeting `Inv`. */
  lemma StartEstablishesInv(email: Option<string>, users: Option<seq<User>>, projects: Option<seq<Project>>)
    ensures var t := StartSession(email, users, projects);
            t.next.Continue? ==> Inv(t.next.route, t.next.state) && t.next.state.projects == projects.value
  {
  }

  /** Every turn keeps `Inv`, the project list and the Harvest user id. */
  lemma StepPreservesInv(route: Route, st: DialogState, ev: Event, parseFloat: string -> ParsedNumber, submitOk: bool)
    requires Inv(route, st)
    requires Defined(route, st, ev)
    ensures var t := Step(route, st, ev, parseFloat, submitOk);
            t.next.Continue? ==>
              && Inv(t.next.route, t.next.state)
              && t.next.state.projects == st.projects
              && t.next.state.harvestUserId == st.harvestUserId
  {
  }

  /** Under `Inv`, a click on task selection is handled exactly when it carries the id of
      one of the selected project's tasks. */
  lemma TaskClickDefined(st: DialogState, v: Id)
    requires Inv(SelectTask, st)
    ensures Defined(SelectTask, st, Action(v)) <==> HasTask(st.selectedProject.value.tasks, v)
  {
  }

  /** Every button offered for a project list is a click the project-selection route
      handles, and when project ids are distinct the i-th button selects the i-th project. */
  lemma ProjectButtonsSelect(st: DialogState, i: nat)
    requires i < |st.projects|
    ensures var b := Buttons.ButtonsForProjects(st.projects)[i];
            Defined(SelectProject, st, Action(b.value))
    ensures (forall j, k :: 0 <= j < k < |st.projects| ==> st.projects[j].id != st.projects[k].id) ==>
              FindProject(st.projects, Buttons.ButtonsForProjects(st.projects)[i].value) == Some(st.projects[i])
  {
  }

  /** One turn as the user takes it: an event, and the outcome the Harvest POST would have
      if the turn makes one. */
  datatype Turn = Turn(event: Event, submitOk: bool)

  /** Feeds turns to the conversation until it ends or the turns run out. `None` means a
      turn reached a case the handlers do not survive (see `Defined`). */
  function Run(route: Route, st: DialogState, turns: seq<Turn>, parseFloat: string -> ParsedNumber): Option<Next>
    decreases |turns|
  {
    if |turns| == 0 then Some(Continue(route, st))
    else if !Defined(route, st, turns[0].event) then None
    else
      match Step(route, st, turns[0].event, parseFloat, turns[0].submitOk).next
      case End => Some(End)
      case Continue(r, s) => Run(r, s, turns[1..], parseFloat)
  }

  /** However many turns are taken, a conversation that is still going satisfies `Inv` and
      holds the same project list and user id it started the turns with. */
  lemma {:induction false} RunPreservesInv(route: Route, st: DialogState, turns: seq<Turn>, parseFloat: string -> ParsedNumber)
    requires Inv(route, st)
    ensures var r := Run(route, st, turns, parseFloat);
            r.Some? && r.value.Continue? ==>
              && Inv(r.value.route, r.value.state)
              && r.value.state.projects == st.projects
              && r.value.state.harvestUserId == st.harvestUserId
    decreases |turns|
  {
    if |turns| > 0 && Defined(route, st, turns[0].event) {
      var t := Step(route, st, turns[0].event, parseFloat, turns[0].submitOk);
      StepPreservesInv(route, st, turns[0].event, parseFloat, turns[0].submitOk);
      if t.next.Continue? {
        RunPreservesInv(t.next.route, t.next.state, turns[1..], parseFloat);
      }
    }
  }

  /** The project list is fetched once per session: whatever turns follow the start, every
      confirmation re-offers the buttons of the list fetched at the start. */
  lemma SessionNeverRefetches(email: Option<string>, users: Option<seq<User>>, projects: Option<seq<Project>>,
                              turns: seq<Turn>, parseFloat: string -> ParsedNumber,
                              start: DialogState, route: Route, st: DialogState, ev: Event, submitOk: bool)
    requires StartSession(email, users, projects).next == Continue(SelectProject, start)
    requires Run(SelectProject, start, turns, parseFloat) == Some(Continue(route, st))
    requires Defined(route, st, ev)
    ensures projects.Some? && st.projects == projects.value
    ensures Step(route, st, ev, parseFloat, submitOk).reply.Logged? ==>
              Step(route, st, ev, parseFloat, submitOk).reply.buttons == Buttons.ButtonsForProjects(projects.value)
  {
    StartEstablishesInv(email, users, projects);
    RunPreservesInv(SelectProject, start, turns, parseFloat);
  }
}
