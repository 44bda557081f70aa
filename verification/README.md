# Harvest bot conversation, modelled in Dafny

HarvestBot is a Slack bot that logs hours into Harvest. A direct message matching `log`
starts a session. The bot looks up the user's Harvest id from their Slack email, fetches
the projects assigned to them and offers one button per project. The conversation is meant
to move through three slapp routes: project selection, task selection and hour input. As
written, building the task buttons throws, so no click reaches task selection (see
"## Findings"); the model follows the intended behaviour and records the as-written one
separately. An accepted number of hours is posted to Harvest. After a successful post the bot offers the
same project list again, so the user can log hours on another project.

This project models that routing as a pure state machine:

- `HarvestTypes` (`harvest_types.dfy`): projects, tasks, Harvest people, buttons, the
  three route tags, the dialog state object and inbound events.
- `Seqs` (`seqs.dfy`): lodash's `_.find`, meaning the first element that satisfies a predicate.
- `Buttons` (`buttons.dfy`): `buttonsForProjects`.
- `UserLookup` (`user_lookup.dfy`): the matching step of `getHarvestUserIdWithEmail`.
- `Hours` (`hours.dfy`): the validation chain applied to the result of `parseFloat`.
- `HarvestFlow` (`flow.dfy`): the `log` trigger, the three route handlers and the dispatch
  on the current route. It also holds the state invariant and the multi-turn lemmas.
- `HarvestFlowAsWritten` (`flow_as_written.dfy`): project selection exactly as the task
  buttons are built, with the defect listed under Findings.
- `HarvestScenario` (`scenario.dfy`): one complete session, from the trigger to the
  confirmation, worked through the model.

A turn maps (route, state, event) to (next route or end, next state, reply kind, posted
entry). The outcomes of the Slack and Harvest calls are inputs:

- the Slack email;
- the people listing;
- the project listing;
- the value `parseFloat` returns for the message text;
- whether the POST reached Harvest without a transport error. A POST that Harvest
  answers with an error status (4xx or 5xx) is not an error to the request library, so it
  is confirmed to the user as logged.

`Run` feeds a sequence of turns to the machine. Its lemmas show properties that hold across
any number of turns. The main one is that the project list fetched at session start is the
list every later confirmation offers.

Behaviour of the code worth knowing:

- There is no button pagination. All projects go into one attachment.
- There is no cancel path, and no inactivity timeout is attached to the routes.
- An hour input of `0` gets the "valid numeric" prompt, not a "more than 0" prompt. `!hours`
  is checked first, and 0 is falsy.
- An empty project list is not a separate notice. It still produces the project prompt,
  with no buttons, and parks the conversation on project selection.
- An hour submission that fails with a transport error sends the user nothing. It is only
  written to the console, and no route is installed. A submission Harvest rejects with an
  HTTP error status is confirmed as logged, with the projects offered again.
- A Harvest user id of 0 counts as "not found", because the check is `!harvestUserId`.

## Model

| member | source | states |
|---|---|---|
| Seqs.Find | src/flows/harvest.js:92-94 | `_.find`: the result satisfies the predicate and is the first element that does; no result exactly when no element does |
| HarvestFlow.FindProject | src/flows/harvest.js:92-94 | the project picked for a clicked id has that id, is in the captured list and is the first with that id; one exists exactly when some project has the id |
| HarvestFlow.FindTask | src/flows/harvest.js:145-147 | the task picked for a clicked id has that id, is among the captured tasks and is the first with that id |
| Buttons.ButtonsForProjects | src/flows/harvest.js:306-316 | exactly one button per project, in the same order; button i has project i's name as text and its id as value |
| Buttons.ButtonsOfConcat | src/flows/harvest.js:307-315 | the buttons are built element by element: the buttons of a joined list are the buttons of its parts, joined in order |
| UserLookup.HarvestUserIdWithEmail | src/flows/harvest.js:271-276 | the id of the first listed person whose email is exactly the given one; nothing exactly when nobody has that email |
| UserLookup.UniqueEmailFindsThatUser | src/flows/harvest.js:271-276 | when emails are unique, looking up a person's email yields that person's id |
| Hours.ValidateHours | src/flows/harvest.js:159-171 | the ordered chain: NaN or 0 gives "not numeric", a negative value gives "more than 0", a value above 24 gives "more than 24"; only 0 < h <= 24 is accepted, unchanged |
| HarvestFlow.StartSession | src/flows/harvest.js:28-74 | a failed Slack or people lookup ends with the generic error; a missing or zero id ends with the not-found message whatever the project listing; with a known id a failed listing ends with the generic error; else a fresh state holding the fetched list and the first matching id is parked on project selection, with one button per project |
| HarvestFlow.SelectProjectStep | src/flows/harvest.js:78-133 | a non-click re-prompts on project selection with the state unchanged; a project without tasks ends the conversation with the notice; otherwise it routes to task selection, adding `selectedProject`, `selectedProjectId` and `tasks` and keeping every other field |
| HarvestFlow.SelectTaskStep | src/flows/harvest.js:135-156 | a non-click re-prompts on task selection with the state unchanged; a click routes to hour input, adding `selectedTaskId` and `selectedTask` and keeping every earlier field |
| HarvestFlow.HourInputStep | src/flows/harvest.js:158-196 | each rejection re-prompts on hour input with the state unchanged, with the prompt picked by the chain; an entry is posted only for 0 < h <= 24, carrying the state's user, project and task ids; a resolved POST returns to project selection with the identical state and the original list's buttons; a transport failure, or a state without a selected project (the confirmation then throws inside the promise chain), installs no route and sends nothing |
| HarvestFlow.Step | src/flows/harvest.js:78-196 | only hour input posts; a non-click on a button route stays on that route; staying on a route never changes the state; no turn changes the project list or the user id |
| HarvestFlow.StartEstablishesInv | src/flows/harvest.js:63 | a started session's state meets the invariant and holds the fetched project list |
| HarvestFlow.StepPreservesInv | src/flows/harvest.js:119-155 | every turn keeps the invariant: the selected project is a captured project with tasks and agrees with `tasks` and `selectedProjectId`; on hour input the selected task is one of those tasks |
| HarvestFlow.TaskClickDefined | src/flows/harvest.js:143-154 | on task selection a click is handled exactly when its id is one of the selected project's task ids |
| HarvestFlow.ProjectButtonsSelect | src/flows/harvest.js:87-94 | every offered project button is a click the project route handles; with distinct ids, button i selects project i |
| HarvestFlow.RunPreservesInv | src/flows/harvest.js:78-196 | across any number of turns, a conversation still going meets the invariant and holds the project list and user id it started with |
| HarvestFlow.SessionNeverRefetches | src/flows/harvest.js:178-190 | after any turns from a session start, the state holds the list fetched at the start, and every confirmation re-offers that list's buttons |
| HarvestFlowAsWritten.SelectProjectAsWritten | src/flows/harvest.js:103-117 | as written, a click on a project with tasks throws; in every other case the handler does exactly what the intended one does: a non-click re-prompts with the same state, a project without tasks ends with the notice |
| HarvestFlowAsWritten.AsWrittenNeverReachesTaskSelection | src/flows/harvest.js:103-132 | for every project with tasks, the as-written handler throws while the intended one routes to task selection |
| HarvestFlowAsWritten.OneTaskProjectThrows | src/flows/harvest.js:103-117 | a concrete case: a single project with a single task throws as written, and the intended handler stores that selection |
| HarvestScenario.ScenarioStarts | src/flows/harvest.js:28-63 | a concrete start: the email matches Harvest user 42 and all five fetched projects are offered, parked on project selection |
| HarvestScenario.ScenarioReachesHourInput | src/flows/harvest.js:78-163 | clicking project 2, then task 21, then sending unparsable text leaves the conversation on hour input, with project and task stored |
| HarvestScenario.ScenarioLogs | src/flows/harvest.js:174-190 | sending 6.5 then posts 6.5 hours for user 42, project 2 and task 21, and re-offers the same five projects with the state unchanged |

## Left out

- Slack and Harvest I/O: `getSlackUserInfo`, `getSlackUserEmail`, `getAllHarvestProjects`, `getAllHarvestProjectsForUser`, `getAllHarvestUsers` and the POST in `logHoursToHarvest` are network calls. Their results are inputs to the model.
- Configuration, credentials and the Basic-auth header: plumbing with no logic.
- `parseFloat`: floating-point text parsing. Its result is an input, `ParsedNumber`: NaN, either infinity, or a finite real.
- The `spent_at` date string in `logHoursToHarvest`. It reads the wall clock and ignores the `date` argument. It also uses `getYear`, a 0-based `getMonth` and the weekday `getDay`. The posted `Entry` therefore omits the date.
- Message wording and layout, including the task buttons' content. The replies are kinds carrying the data they show.
- Throwing handlers: an unknown project or task id, or a button click on hour input. These are excluded by the `Defined` precondition rather than modelled. `Run` stops with `None` when a turn reaches one. The exception is the undeclared `Cancel`, which the as-written module models.
- A response body that is not JSON: `JSON.parse` throws inside the request callback (src/flows/harvest.js lines 261 and 248), outside the promise, so the session start sends nothing. Not modelled; a `None` listing stands only for a reported request error or a decoded body without the expected array.
- The argument-less `msg.say()` before the confirmation (src/flows/harvest.js line 176). The model assumes it neither throws nor sends anything that matters.
- Slack event kinds other than button clicks: every one of them is a `Message` carrying a text. On hour input, an event with no `msg.body.event`, such as a slash command, would throw when the route reads `msg.body.event.text`; the model does not distinguish such events. A message event without `text` parses to NaN and gets the "valid numeric" re-prompt, which the model covers as a `Message` whose parse is NaN.
- slapp's dispatch: a pending route taking precedence over message handlers, the `log` pattern matching, and the `direct_message` filter. These are library behaviour. The model starts from `StartSession` and from the route handlers.
- The catch-all greeting and console logging: cosmetic.
- Promise chaining and asynchronous ordering. Each handler is one atomic turn.
- Loose equality between Slack's string button value and Harvest's numeric id. Ids are compared as the same integer type.
- Button fields `name`, `type` and `style`. They are constants and are not represented.

## Findings

| source | as written | input that shows it | evidently intended | confidence | as-written member | corrected member |
|---|---|---|---|---|---|---|
| src/flows/harvest.js:103-117 | the task-button callback reads the undeclared identifier `Cancel`, so `tasks.map` throws a ReferenceError. The comma operator would also have kept only the second object. | any click on a project with at least one task, e.g. one project `7` with one task `1` | send the task choice and route to task selection with the selection stored | high (not executed) | HarvestFlowAsWritten.SelectProjectAsWritten | HarvestFlow.SelectProjectStep |
