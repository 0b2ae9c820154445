# owl: resource classifier and key-driven application state

owl is a terminal explorer for AWS CloudFormation. At start-up it lists the
stacks of the account; the user moves a cursor over them with the arrow keys,
presses Enter to open the selected stack in the AWS console, and quits with
Esc, `q` or Ctrl-C. A stack view classifies a stack's resources into Lambda
functions, Step Functions state machines and API Gateway REST APIs.

This project models two parts of it in Dafny:

- `stack_view.dfy` (module `StackView`): `Stack::sort`, the classifier, as a
  method with a loop over the fetched resources, proved equal to `Classify`,
  three order-preserving filters. Lemmas about `Classify` state membership,
  order, sizes, disjointness and exact tag matching. `Stack::new` is modelled
  once the resources are fetched: the stack keeps its summary and its
  resources are the classification of the fetched list.
- `app.dfy` (module `OwlApp`): the `App` class with its `running` flag and
  its stack list with a selection cursor; `App::new`, `quit`, `on_key_event`,
  `go_to_stack_link` up to the stack id it opens, `handle_crossterm_events` and
  the `run` loop. Each state-changing method is proved against a pure
  function of the state (`Stopped`, `ApplyKey`, `ApplyEvent`, `AfterRender`, `RunLoop`), and
  the lemmas state the key handler's and the loop's properties on those.
- `list_state.dfy` (module `ListStates`): the selection cursor, ratatui's
  `ListState`. Its code is in the ratatui library and is not part of this
  model. The model assumes ratatui 0.29's behaviour:
  - `select_next` selects 0 when nothing is selected, else the next index,
    saturating at `usize::MAX`;
  - `select_previous` selects `usize::MAX` when nothing is selected, else the
    previous index, saturating at 0;
  - drawing a stateful list of `n` items deselects when `n == 0` and pulls a
    selection at or past `n` back to `n - 1`.
- `events.dfy`, `cloudformation.dfy`, `wrappers.dfy`: crossterm's event
  types, the CloudFormation records, and `Option`. Only the fields the code
  reads are kept.

Terminal input (`event::read()`) is a parameter: `Run` takes the sequence of
events the terminal would deliver. The fetched stack and resource lists are
parameters as well.

Three facts about the code shape the model: Enter opens a console link
and changes no application state; `views::stack_view` is not declared in
`main.rs`, so the stack view is not reachable from the application; and the
cursor is only pulled back into range when the list is drawn, not when it
moves.

## Model

| member | source | states |
|---|---|---|
| StackView.Sort | src/views/stack_view.rs:45-65 | starting from three empty buckets and pushing each resource in input order, the result is `Classify` of the input, the three order-preserving filters by type tag; being a function of the input alone, two calls on one list give equal results |
| StackView.Stack.constructor | src/views/stack_view.rs:37-42 | a new stack keeps the given summary, and its resources are the classification of the fetched list with the type strings as written (`AsWrittenTags`, including `AWS::ApiGatewayRestApi`) |
| StackView.BucketOf | src/views/stack_view.rs:53-60 | the match arm a type tag selects: `lambdas` exactly for the lambda tag; `stateMachines` exactly for its tag when it differs from the lambda tag; `apis` exactly for its tag when it differs from both earlier ones; no bucket exactly for a missing tag or a tag equal to none of the three |
| StackView.Filter | src/views/stack_view.rs:52-61 | one bucket built by the loop: never longer than the input, and every resource in it has a tag that selects that bucket |
| StackView.Classify | src/views/stack_view.rs:46-62 | the three buckets `sort` fills: an empty input gives three empty buckets, and no resource is in two of them |
| StackView.FilterMembers | src/views/stack_view.rs:52-61 | a resource is in a bucket if and only if it is in the input and its type tag selects that bucket; a bucket is never longer than the input |
| StackView.FilterIsOrderedSelection | src/views/stack_view.rs:52-62 | each bucket is the input read at a strictly increasing list of positions, and those positions are exactly the ones whose tag selects the bucket (contents, multiplicity and order) |
| StackView.RelativeOrderKept | src/views/stack_view.rs:52-62 | if `rs[i]` comes before `rs[j]` in the input and both fall in one bucket, `rs[i]` comes before `rs[j]` in that bucket |
| StackView.BucketSizes | src/views/stack_view.rs:46-62 | the three bucket lengths add up to the number of recognised inputs, which is at most the input length |
| StackView.BucketsDisjoint | src/views/stack_view.rs:53-61 | no resource is in two different buckets |
| StackView.BucketsMatchExactly | src/views/stack_view.rs:53-58 | with distinct tags, `lambdas`, `stateMachines` and `apis` hold exactly the inputs whose type is literally that bucket's tag |
| StackView.UnrecognizedDropped | src/views/stack_view.rs:59-60 | a resource with no type, or a type matching none of the tags, is in no bucket |
| StackView.EmptyInputEmptyBuckets | src/views/stack_view.rs:46-50 | an empty input gives three empty buckets |
| StackView.AsWrittenDropsRestApis | src/views/stack_view.rs:58 | with the tags as written, no resource of CloudFormation type `AWS::ApiGateway::RestApi` ends up in any bucket |
| StackView.AsWrittenRestApiExample | src/views/stack_view.rs:58 | a concrete list of one REST API resource gives three empty buckets with the tags as written |
| StackView.CorrectedKeepsRestApis | src/views/stack_view.rs:58 | with the CloudFormation tag, `apis` holds exactly the input resources of type `AWS::ApiGateway::RestApi` |
| ListStates.SelectNext | src/main.rs:121 | ratatui's `select_next`, an assumed library behaviour: always leaves something selected, and moves an existing selection forward by at most one |
| ListStates.SelectPrevious | src/main.rs:122 | ratatui's `select_previous`, an assumed library behaviour: always leaves something selected, and moves an existing selection back by at most one |
| ListStates.Clamp | src/main.rs:87-100 | ratatui's adjustment of the cursor when a stateful list of `n` items is drawn, an assumed library behaviour: the selection afterwards is absent or below `n`, and absent when `n == 0` |
| ListStates.ClampSelectsWithin | src/main.rs:87-100 | after the list is drawn the selection is absent or within the list; a selection already within a non-empty list is kept; the selection is removed exactly when the list is empty or nothing was selected |
| ListStates.MoveDownThenRender | src/main.rs:121 | on a non-empty list, Down then a draw selects the first item from no selection, moves one down otherwise, and keeps the last item selected |
| ListStates.MoveUpThenRender | src/main.rs:122 | on a non-empty list, Up then a draw selects the last item from no selection, moves one up otherwise, and keeps the first item selected |
| OwlApp.Dispatch | src/main.rs:117-125 | the arm of the key handler's match a key takes: Down, Up and Enter take their arms exactly for those codes, and any other unnamed key code does nothing (the quit arms are stated by `QuitKeys`) |
| OwlApp.LinkGuard | src/main.rs:130-136 | what Enter needs to not panic (`expect` on the selection, indexing, `unwrap` of the stack id): it implies a selected index within the list, and never holds on an empty list |
| OwlApp.IsKeyPress | src/main.rs:107 | the events that reach the key handler: only key events, and never a key release or repeat |
| OwlApp.Panics | src/main.rs:123-136 | handling an event panics exactly when it is a pressed Enter, with any modifiers, and the Enter guard fails; in particular a pressed Enter with nothing selected always panics |
| OwlApp.RunLoop | src/main.rs:55-62 | the loop over the terminal's events, drawing before each read: it reads at most the events given and never changes the stacks |
| OwlApp.Stopped | src/main.rs:145-147 | quitting makes `running` false and leaves the stack list and cursor as they were |
| OwlApp.ApplyKey | src/main.rs:116-126 | a key never changes the stacks; `running` ends false exactly when it was false or the key quits; any key other than Down/Up leaves stacks and cursor unchanged |
| OwlApp.ApplyEvent | src/main.rs:104-113 | handling an event never changes the stacks; a key press has exactly the key handler's effect (`ApplyKey`), and an event that is not a key press leaves the whole state unchanged |
| OwlApp.AfterRender | src/main.rs:87-100 | drawing leaves `running` and the stacks unchanged and leaves the selection within the list |
| OwlApp.App.constructor | src/main.rs:44-52 | a new app is not running, selects nothing, and holds the stacks as given |
| OwlApp.App.Quit | src/main.rs:145-147 | sets `running` to false and changes nothing else |
| OwlApp.App.GoToStackLink | src/main.rs:129-142 | callable only with a selected index within the list whose stack has an id (otherwise the source panics); returns that stack's id, the ARN the console link is built from, and changes no state |
| OwlApp.App.OnKeyEvent | src/main.rs:116-126 | the new state is `ApplyKey` of the old state and the key |
| OwlApp.App.HandleCrosstermEvents | src/main.rs:104-113 | the new state is `ApplyEvent` of the old state and the event |
| OwlApp.App.Render | src/main.rs:69-101 | the new state is the old one with the cursor pulled into the list, as ratatui does when drawing |
| OwlApp.App.Run | src/main.rs:55-62 | sets `running`, then draws and handles one event per iteration while running; the end state, the events read and how it ended agree with `RunLoop`; the stacks are unchanged; `running` is false exactly when it ended by quitting |
| OwlApp.QuitKeys | src/main.rs:117-119 | a key quits if and only if it is Esc or `q` (any modifiers), or `c`/`C` with exactly the CONTROL modifier |
| OwlApp.PlainCIgnored | src/main.rs:119-124 | `c` or `C` with any modifier set other than exactly CONTROL takes the no-op arm and leaves the state unchanged |
| OwlApp.QuitIdempotent | src/main.rs:145-147 | quitting twice gives the same state as quitting once |
| OwlApp.MovesChangeOnlyCursor | src/main.rs:121-122 | Down and Up keep `running` and the stacks, and set the cursor to `select_next` / `select_previous` of the old one |
| OwlApp.EnterChangesNothing | src/main.rs:123-141 | Enter, once past its guard, leaves the whole state unchanged (the browser launch is not modelled) |
| OwlApp.OnlyKeyPressesCount | src/main.rs:105-111 | key releases and repeats, mouse, resize, focus and paste events never panic and leave the state unchanged |
| OwlApp.EnterAfterRender | src/main.rs:130-136 | right after a draw, a selected index is always within the list, and there is no selection exactly when the list is empty or nothing was selected before |
| OwlApp.RunLoopEnds | src/main.rs:55-62 | the loop reads at most the events given, never changes the stacks, ends with `running` false exactly when it quit, and runs out of events only after reading them all |
| OwlApp.RunLoopIgnoresLaterEvents | src/main.rs:57-60 | once the loop has quit or panicked, events after that point are never read: appending events changes nothing |
| OwlApp.QuitKeyEndsLoop | src/main.rs:57-59 | a quit key pressed while running ends the loop after exactly that event, with `running` false |
| OwlApp.EnterAtStartPanics | src/main.rs:130-134 | Enter as the first key after start-up panics, because `App::new` selects nothing and a draw does not select |

## Left out

- `src/aws.rs` (`create_config`, `get_stacks`, `_list_tables`): the AWS client, its credentials, region and remote calls. The fetched stack and resource lists are parameters.
- The tokio runtime that fetches a stack's resources in `Stack::new`, and the `spawn`/`await` and double `unwrap` in `main`: concurrency and blocking I/O. A failed fetch, which panics in the source, is not modelled.
- Drawing: layout, styles, titles and the rendered text of `App::render`, `render_list` and `Widget for &Stack`. Of `App::render` only ratatui's effect on the cursor is modelled (`AfterRender`). It is assumed the drawing area is not empty; ratatui skips that step for an empty area. The `unwrap` of stack names and logical ids while drawing, which panics on a missing value, is not modelled.
- `open::that` and the console URL built from the ARN: an external browser launch. `GoToStackLink` stops at the ARN.
- `event::read()` and its errors, and errors from `terminal.draw`: terminal I/O. Events are an input sequence, and `Run` also stops when the sequence runs out, in the state after the frame is drawn; the source would wait there for more input instead.
- The internals of ratatui's `ListState` (`select_next`, `select_previous`, the clamp when drawing): written out in `ListStates` as ratatui 0.29 behaves, as an assumption. The list's scroll offset is not modelled. `usize` is taken to be 64 bits wide.
- crossterm's `KeyEventState` and the payloads of mouse, paste and resize events: the code never reads them.
- The classifier is parameterised by the three type strings it matches on. `Stack` uses the strings as written; the corrected REST API string is stated separately (see Findings). Every other property is proved for any strings; `BucketsMatchExactly` needs the three to be distinct, which the strings as written are.

## Findings

| source | as written | input that shows it | evidently intended | confidence | as-written member | corrected member |
|---|---|---|---|---|---|---|
| src/views/stack_view.rs:58 | REST APIs are matched on the type string `AWS::ApiGatewayRestApi`, which is not a CloudFormation resource type | a resource of type `AWS::ApiGateway::RestApi`, the type CloudFormation reports for a REST API, lands in no bucket, so the "API Gateway Rest APIs" pane is always empty | match `AWS::ApiGateway::RestApi` | high, from CloudFormation's resource type names; not executed | StackView.AsWrittenRestApiExample | StackView.CorrectedKeepsRestApis |
