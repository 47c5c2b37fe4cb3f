# modelstack, modelled in Dafny

modelstack is a Go package for the Bubbletea terminal-UI framework. It
provides a `tea.Model` that hands control among several models. It holds one
active model (`current`), a stack of paused models and the last
`tea.WindowSizeMsg` it saw (`lastResize`). Its `Update` intercepts two control
messages:

- `PushModel{m}` pauses the active model on the stack and makes `m` active.
- `PopModel{msgs}` resumes the most recently paused model.

Every other message goes to the active model unchanged. Whenever a model gains
control, it receives `Init` and then the cached window size. On a pop, the
replayed messages follow. The paused models live on a small generic linked
stack (`internal/stack`).

The project has three files:

- `stack.dfy` (module `Stack`) models `internal/stack/stack.go` as two
  classes. `Element` is a heap node with `next` and `Value`. `Stack` has one
  mutable field, `current`. A ghost `Contents` sequence (top first) and a
  `Repr` footprint give the abstract value. `Push`, `Pop`, `Peek` and `Swap`
  are methods whose postconditions state the new `Contents`. Client methods
  at the end restate the package's tests as postconditions: LIFO order,
  aliasing through two handles, and seeding.
- `protocol.dfy` (module `Protocol`) holds the values the router works with:
  messages (`Msg`), deferred actions (`Cmd`), the window size (`Size`), and
  the component interface as a table of functions (`ModelOps`: Init, Update,
  View over an opaque model type `C`). It also holds a pure specification of
  one `Update` call:
  - `Step` maps a state (`Config`) and a message to a new state, the action
    returned to the host, and the ordered list of calls made into models
    (`Delivery`).
  - `Feed` is `updateCurrent` applied to a list of messages in turn.
  - `Session` is a run of messages delivered by the host one after another.
  - The lemmas state the push/pop protocol: see the table below.
- `modelstack.dfy` (module `ModelStack`) is the router as a class
  `ModelStack`. Its fields are `current`, `lastResize` and a `const stack`
  that points to a `Stack.Stack`. A ghost `trace` records every call made into
  a model. `Update` is proved against `Step`: the new abstract state, the
  returned action and the new calls appended to `trace` are exactly what
  `Step` gives. The PopModel branch fills a `2 + |msgs|`-slot array in a loop,
  as the source fills its slice.

The model follows the code on these points:

- The cached size is a plain `tea.WindowSizeMsg` whose zero value is (0, 0).
  It is not optional. It is replayed on every push and pop, even before any
  resize has arrived (modelstack.go:73, 124, 131; the comment at
  modelstack_test.go:195).
- Two handles to one stack share it. They are not independent copies
  (internal/stack/stack_test.go:69-100).
- A pop with nothing paused is a crash in the source: `Pop()` returns nil and
  `.Value` dereferences it (modelstack.go:128). The model turns this into an
  explicit `Err(StackUnderflow)` result that leaves the state unchanged. It
  is never a silent no-op.
- The test at modelstack_test.go:208-214 type-asserts on the command that
  `Pop("butts")` returns, without calling it. `Protocol.PopCmd` states the
  property about the message that the command yields, as
  modelstack_test.go:199-206 does for `Push`.

## Model

| member | source | states |
|---|---|---|
| Stack.Stack.New | internal/stack/stack_test.go:102-114 | The new stack's contents are the given values with the first one on top, so `New(i, j, k)` pops i, then j, then k. |
| Stack.Stack.Pop | internal/stack/stack.go:17-24 | Returns null exactly when the stack was empty, and then changes nothing. Otherwise it returns the node holding the old top value and the contents become the old contents minus the top. The returned node is no longer part of the stack. |
| Stack.Stack.Peek | internal/stack/stack.go:26-29 | Returns null exactly when the stack is empty, otherwise a node holding the top value. It changes nothing: it has no modifies clause. |
| Stack.Stack.Push | internal/stack/stack.go:31-34 | The contents become `[v] + old contents`: one more frame, and the frames below are unchanged. |
| Stack.Stack.Swap | internal/stack/stack.go:36-39 | On a non-empty stack it overwrites the value of the top node in place: the stack still points at the same top node, which now holds v. The depth, the frames below and the set of nodes stay the same. |
| Stack.PushPeekPop | internal/stack/stack_test.go:11-20 | After a push of i, Peek sees i and the following Pop returns i. |
| Stack.SwapThenPeek | internal/stack/stack_test.go:22-33 | After a push of i and a swap to j, Peek sees j. A single Pop then empties the stack, so the swap added no frame. |
| Stack.EmptyPopPeek | internal/stack/stack_test.go:35-51 | Pop and Peek on an empty stack both return null. |
| Stack.LifoOrder | internal/stack/stack_test.go:53-67 | Push i, push j, pop, pop gives j, then i. |
| Stack.PopThroughTwoHandles | internal/stack/stack_test.go:69-83 | A pop through a copied handle removes j, and a pop through the original handle then sees i. |
| Stack.PushThroughTwoHandles | internal/stack/stack_test.go:85-100 | Pushes through two handles land on one stack: the original handle pops j (pushed through the copy), and the copy then pops i. |
| Stack.PreSeeded | internal/stack/stack_test.go:102-114 | A stack seeded with i, j, k pops i, j, k in that order. |
| Protocol.PushCmd | modelstack.go:38-45 | The action `Push(m)` returns yields `PushModel{m}` when run. |
| Protocol.PopCmd | modelstack.go:47-55 | The action `Pop(msgs...)` returns yields `PopModel{msgs}`, with the messages in the order given. |
| Protocol.Feed | modelstack.go:86-90 | Handing n messages to a model in turn yields exactly n actions and n recorded calls. |
| Protocol.FeedThreads | modelstack.go:132-134 | The i-th message is handed, unchanged, to the model version that the first i Updates produced. The i-th action is the one that version's Update returned. |
| Protocol.FeedAppend | modelstack.go:129-134 | Feeding `xs` and then `ys` is the same as feeding `xs + ys`. The second part starts from the model the first part left. |
| Protocol.Step | modelstack.go:110-142 | Dispatch fails exactly on a PopModel with nothing paused, and the failure is a stack underflow. On success the stack grows by one frame for a push, shrinks by one for a pop, and keeps its depth otherwise. |
| Protocol.PushTransfersControl | modelstack.go:119-125 | PushModel{c} never fails. The old active model goes on top of the stack and c becomes active. c receives Init, then the cached size. The action is the batch of those two actions. The PushModel message reaches no model, and the cached size is unchanged. |
| Protocol.PopResumesTop | modelstack.go:126-135 | PopModel{msgs} with something paused resumes the top paused model, and the stack loses its top. That model receives Init, then the cached size. Each of msgs then goes, in order, to the version the previous Update returned, and the last version stays active. The batch has 2 + len(msgs) actions: the Init action, then the action of each Update in the same order. The PopModel message reaches no model, and the cached size is unchanged. |
| Protocol.ForwardsOnce | modelstack.go:138-141 | Any non-control, non-resize message is handed once, unchanged, to the active model. Its action is returned as it is, and the stack and the cached size are unchanged. |
| Protocol.ResizeCachedAndForwarded | modelstack.go:116-141 | A window-size message replaces the cached size and is also handed once to the active model. The stack is unchanged, and the model's action is returned as it is. |
| Protocol.ResizeOnlyChangesCache | modelstack.go:116-136 | After any successful dispatch the cached size is the message's size if it was a resize, and the old cached size otherwise. Sizes among a pop's replayed messages do not change the cache. |
| Protocol.PushThenPopRestores | modelstack_test.go:61-69 | A push followed by a pop with no messages restores the stack and the cached size. The previously active model itself is re-initialised and handed the size. The version its Update returns becomes active; that is the original model when, like the test's model, it returns itself. |
| Protocol.ResizeThenPushReplaysSize | modelstack_test.go:170-182 | After a resize to z, a newly pushed model receives Init and then exactly z as its first message. |
| Protocol.ZeroResizeReplayedOnPop | modelstack_test.go:184-197 | With no resize ever seen, the model resumed after a push and a pop with one message x receives Init, the zero size, then x: x is its second message. |
| Protocol.PushCmdHandsControl | modelstack.go:38-45 | Once the host runs the action from `Push(m)` and hands its message back, the old active model is paused on top of the stack. m receives Init, then the cached size, and the version its Update returns becomes active. |
| Protocol.PopCmdReturnsControl | modelstack.go:47-55 | Once the host runs the action from `Pop(msgs...)` and hands its message back, the dispatch fails with a stack underflow when nothing is paused. Otherwise the top paused model is popped and receives Init and then the cached size. Each of msgs then goes, in order, to the version the previous Update returned, and the last version stays active. |
| Protocol.SessionDepth | modelstack.go:116-136 | Over any run of messages, the stack depth is the initial depth plus the pushes minus the pops. The run fails exactly when, at some prefix, the pops exceed the initial depth plus the pushes before them. |
| ModelStack.ModelStack.New | modelstack.go:57-67 | A new model stack has the given model active, nothing paused, a zero cached size and no calls made. View renders that model. |
| ModelStack.ModelStack.View | modelstack.go:78-84 | Renders the active model: the result is the component's own View of `current`, with nothing added by the router. |
| ModelStack.ModelStack.Init | modelstack.go:144-149 | Every call calls Init on the active model and returns its action. Nothing is remembered between calls, so n calls make n Init calls, and the state is unchanged. |
| ModelStack.ModelStack.UpdateCurrent | modelstack.go:86-90 | Hands the message to the active model, keeps the version it returns and returns its action. One call is recorded. |
| ModelStack.ModelStack.Update | modelstack.go:107-142 | The new state, the returned action and the recorded calls are those of `Step`. On a pop with nothing paused it returns a stack underflow and leaves state and calls unchanged. |
| ModelStack.ModelStack.HandlePush | modelstack.go:119-125 | The PushModel branch meets `Step` for PushModel. |
| ModelStack.ModelStack.HandlePop | modelstack.go:126-135 | The PopModel branch meets `Step` for PopModel, including the underflow case. |
| ModelStack.ModelStack.Resume | modelstack.go:129-135 | The resumed model gets Init, the cached size, then the replayed messages (by `Feed`). The batch is the Init action followed by the 1 + len(msgs) Update actions. |
| ModelStack.ModelStack.ReplayInto | modelstack.go:132-134 | The loop stores the action of the i-th replayed message at index i + 2 and leaves indices 0 and 1 alone. The active model and the calls are those of `Feed`. |
| ModelStack.PushThenPopView | modelstack_test.go:52-69 | For models that stay as they are on a resize, View shows the pushed model after a push and the first model again after the pop. |
| ModelStack.PopOnFreshFails | modelstack.go:126-128 | A pop on a new model stack fails with a stack underflow, and the first model is still the one rendered. |
| ModelStack.InitTwice | modelstack_test.go:71-82 | Two Init calls on a new model stack record two Init calls on its model. |

## Left out

- Logging is not modelled: `WithSlogger`, the `Option` plumbing, `lazyLogType`/`slogType` and every `slog` call (modelstack.go:13-21, 92-105 and the log lines in `View`, `Update` and `Init`). The model assumes that the `m.l.LogAttrs` calls in `View` (modelstack.go:81) and `Update` (modelstack.go:111) return. That holds only when a logger is attached through `WithSlogger`: `New` without options leaves `l` nil (modelstack.go:58-67), and `log/slog` reads the logger's handler through that pointer. `log/slog` is not part of this model.
- `tea.Batch` is not modelled beyond its arguments. Its dropping of nil commands and its collapsing of a single command are Bubbletea internals. A batch is modelled as the literal sequence of the actions handed to it.
- Running commands and delivering their results is not modelled. The host runs commands asynchronously and delivers each result to whichever model is active at that time. Only the messages that `Push`/`Pop` commands yield are modelled (`PushCmd`, `PopCmd`, and the two lemmas that feed them back to `Step`).
- Go's value receivers are not modelled: copies of a `ModelStack` share one `*Stack`. The router is modelled as a single object that `Update` changes in place.
- Concrete model behaviour is not modelled. Models are an opaque type with Init, Update and View supplied as total functions. The pointer-shared counters of the test models are replaced by the ghost `trace`.
- The pop-on-empty crash is not modelled as a crash. It becomes the `Err(StackUnderflow)` result of `Update`/`Step`, with the state untouched. A Go panic cannot be expressed otherwise.
- Stack.Stack.Swap requires a non-empty stack. The source dereferences the top node without a check, so on an empty stack it panics.
- Stack.Stack.New: the body of `stack.New` is not part of this model. Its contract is taken from the test at internal/stack/stack_test.go:102-114, and the body pushes the values from last to first.
- Window sizes are unbounded integers. The source's `int` width never matters, because no arithmetic is done on them.
- View output is an opaque string produced by the model's View function.
