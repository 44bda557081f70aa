/** The entities the Harvest logging conversation works with: Harvest projects, tasks and
    people, the Slack buttons offered to the user, the route tags and the dialog state that
    slapp threads from one route handler to the next. */
module HarvestTypes {
  import opened Wrappers

  /** A Harvest project or task id. Slack returns a clicked button's value as a string and
      the handlers compare it with loose equality (`==`) against the numeric id; the model
      identifies the two and compares ids directly. */
  type Id = int

  datatype Task = Task(id: Id, name: string)

  datatype Project = Project(id: Id, name: string, tasks: seq<Task>)

  /** One entry of Harvest's `/people` listing, reduced to the `user.id` and `user.email`
      fields the lookup reads. */
  datatype User = User(id: int, email: string)

  /** A Slack message button. The constant fields of the source's button objects
      (`name: 'projectAnswer'`, `type: 'button'`, `style: 'default'`) are not represented. */
  datatype Button = Button(text: string, value: Id)

  /** The three slapp route names a conversation can be parked on. */
  datatype Route = SelectProject | SelectTask | HourInput

  /** The state object passed to `.route(...)`. A session starts with `projects` and
      `harvestUserId`; project selection adds `selectedProject`, `selectedProjectId` and
      `tasks`; task selection adds `selectedTaskId` and `selectedTask`. Fields never set
      are `None` (undefined in the source). */
  datatype DialogState = DialogState(
    projects: seq<Project>,
    harvestUserId: int,
    selectedProject: Option<Project>,
    selectedProjectId: Option<Id>,
    tasks: Option<seq<Task>>,
    selectedTaskId: Option<Id>,
    selectedTask: Option<Task>)

  /** An inbound Slack event: a button click (`msg.type == 'action'`, carrying the value of
      `msg.body.actions[0]`) or anything else. Every other event kind is folded into
      `Message`, with the text the hour-input route reads from `msg.body.event.text`. */
  datatype Event = Action(value: Id) | Message(text: string)
}
