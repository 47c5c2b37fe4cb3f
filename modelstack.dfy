/** A model stack: one active model, a stack of paused models and the last
    window size seen.  Its Update intercepts PushModel and PopModel messages
    to hand control from one model to another and passes every other message
    to the active model.  Each method is proved against the pure dispatch
    function `Protocol.Step`. */
module ModelStack {
  import opened Stack
  import opened Protocol

  class ModelStack<C, P> {
    /** What the models do: their Init, Update and View. */
    const ops: ModelOps<C, P>
    var current: C
    var lastResize: Size
    const stack: Stack<C>
    /** Every call made into a model so far, in order. */
    ghost var trace: seq<Delivery<C, P>>
    ghost var Repr: set<object>

    ghost predicate Valid()
      reads this, Repr
    {
      this in Repr && stack in Repr && stack.Repr <= Repr && this !in stack.Repr && stack.Valid()
    }

    /** The abstract state: active model, paused models top first, cached size. */
    ghost function State(): Config<C>
      reads this, stack
    {
      Config(current, stack.Contents, lastResize)
    }

    /** A model stack with `m` active, nothing paused and a zero cached size. */
    constructor New(ops: ModelOps<C, P>, m: C)
      ensures Valid() && fresh(Repr)
      ensures this.ops == ops && State() == Config(m, [], ZeroSize) && trace == []
      ensures View() == ops.view(m)
    {
      this.ops := ops;
      current := m;
      lastResize := ZeroSize;
      stack := new Stack.New([]);
      trace := [];
      new;
      Repr := {this} + stack.Repr;
    }

    /** What the active model renders. */
    function View(): string
      reads this
    {
      ops.view(current)
    }

    /** Calls Init on the active model, on every call: nothing is remembered
        between calls, so n calls make n Init calls. */
    method Init() returns (cmd: Cmd<C, P>)
      modifies this`trace
      ensures cmd == ops.init(current)
      ensures trace == old(trace) + [Delivery(current, InitCall)]
    {
      cmd := ops.init(current);
      trace := trace + [Delivery(current, InitCall)];
    }

    /** Hands `msg` to the active model and keeps the version it returns. */
    method UpdateCurrent(msg: Msg<C, P>) returns (cmd: Cmd<C, P>)
      modifies this`current, this`trace
      ensures current == ops.update(old(current), msg).model
      ensures cmd == ops.update(old(current), msg).cmd
      ensures trace == old(trace) + [Delivery(old(current), Delivered(msg))]
    {
      var reply := ops.update(current, msg);
      trace := trace + [Delivery(current, Delivered(msg))];
      current := reply.model;
      cmd := reply.cmd;
    }

    /** Dispatches one message.  A pop with nothing paused fails with a stack
        underflow and leaves the model stack as it was. */
    method Update(msg: Msg<C, P>) returns (r: Result<Cmd<C, P>>)
      requires Valid()
      modifies Repr
      ensures Valid() && fresh(Repr - old(Repr))
      ensures Step(ops, old(State()), msg).Ok? ==>
        var t := Step(ops, old(State()), msg).value;
        r == Ok(t.cmd) && State() == t.after && trace == old(trace) + t.trace
      ensures Step(ops, old(State()), msg).Err? ==>
        r == Err(StackUnderflow) && State() == old(State()) && trace == old(trace)
    {
      match msg {
        case PushModel(m) =>
          var cmd := HandlePush(m);
          r := Ok(cmd);
          return;
        case PopModel(replay) =>
          r := HandlePop(replay);
          return;
        case WindowSize(size) =>
          lastResize := size;
        case Other(_) =>
      }
      var cmd := UpdateCurrent(msg);
      r := Ok(cmd);
    }

    /** The PushModel branch of Update. */
    method HandlePush(m: C) returns (cmd: Cmd<C, P>)
      requires Valid()
      modifies Repr
      ensures Valid() && fresh(Repr - old(Repr))
      ensures var t := Step(ops, old(State()), PushModel(m)).value;
        cmd == t.cmd && State() == t.after && trace == old(trace) + t.trace
    {
      stack.Push(current);
      Repr := Repr + stack.Repr;
      current := m;
      var initCmd := Init();
      var resizeCmd := UpdateCurrent(WindowSize(lastResize));
      cmd := Batch([initCmd, resizeCmd]);
    }

    /** The PopModel branch of Update. */
    method HandlePop(replay: seq<Msg<C, P>>) returns (r: Result<Cmd<C, P>>)
      requires Valid()
      modifies Repr
      ensures Valid() && fresh(Repr - old(Repr))
      ensures Step(ops, old(State()), PopModel(replay)).Ok? ==>
        var t := Step(ops, old(State()), PopModel(replay)).value;
        r == Ok(t.cmd) && State() == t.after && trace == old(trace) + t.trace
      ensures Step(ops, old(State()), PopModel(replay)).Err? ==>
        r == Err(StackUnderflow) && State() == old(State()) && trace == old(trace)
    {
      ghost var s := State();
      var top := stack.Pop();
      if top == null {
        r := Err(StackUnderflow);
        return;
      }
      Repr := {this} + stack.Repr;
      current := top.Value;
      assert current == s.stack[0] && stack.Contents == s.stack[1..] && lastResize == s.lastResize;
      var cmd := Resume(replay);
      r := Ok(cmd);
    }

    /** What the PopModel branch does once the paused model is active again:
        Init, the cached resize, then each replayed message in order, one
        action per call collected into a batch of 2 + |replay| actions. */
    method Resume(replay: seq<Msg<C, P>>) returns (cmd: Cmd<C, P>)
      modifies this`current, this`trace
      ensures var run := Feed(ops, old(current), [WindowSize(lastResize)] + replay);
        && current == run.model
        && cmd == Batch([ops.init(old(current))] + run.cmds)
        && trace == old(trace) + [Delivery(old(current), InitCall)] + run.trace
    {
      ghost var resumed, before := current, trace;
      ghost var first := Feed(ops, resumed, [WindowSize(lastResize)]);
      FeedOne(ops, resumed, WindowSize(lastResize));
      var cmds := new Cmd<C, P>[2 + |replay|];
      var initCmd := Init();
      var resizeCmd := UpdateCurrent(WindowSize(lastResize));
      cmds[0], cmds[1] := initCmd, resizeCmd;
      ghost var head := before + [Delivery(resumed, InitCall)];
      assert trace == head + first.trace;
      ReplayInto(cmds, replay);
      ghost var second := Feed(ops, first.model, replay);
      FeedAppend(ops, resumed, [WindowSize(lastResize)], replay);
      assert trace == head + (first.trace + second.trace);
      assert cmds[..] == [initCmd] + ([resizeCmd] + second.cmds);
      cmd := Batch(cmds[..]);
    }

    /** The loop of the PopModel branch: hands each of `replay` in turn to the
        active model and stores the i-th action at index i + 2 of `cmds`. */
    method ReplayInto(cmds: array<Cmd<C, P>>, replay: seq<Msg<C, P>>)
      requires cmds.Length == 2 + |replay|
      modifies this`current, this`trace, cmds
      ensures var run := Feed(ops, old(current), replay);
        && current == run.model
        && cmds[..2] == old(cmds[..2]) && cmds[2..] == run.cmds
        && trace == old(trace) + run.trace
    {
      ghost var start := current;
      for i := 0 to |replay|
        invariant var run := Feed(ops, start, replay[..i]);
          && current == run.model
          && cmds[..2] == old(cmds[..2]) && cmds[2..i + 2] == run.cmds
          && trace == old(trace) + run.trace
      {
        FeedSnoc(ops, start, replay[..i], replay[i]);
        assert replay[..i] + [replay[i]] == replay[..i + 1];
        cmds[i + 2] := UpdateCurrent(replay[i]);
      }
      assert replay[..|replay|] == replay;
    }
  }

  /** Pushing a model and popping it again shows the pushed model's view and
      then the first model's view once more, for models whose Update leaves
      them as they are on a resize. */
  method PushThenPopView<C, P>(ops: ModelOps<C, P>, a: C, b: C) returns (pushed: string, popped: string)
    requires ops.update(a, WindowSize(ZeroSize)).model == a
    requires ops.update(b, WindowSize(ZeroSize)).model == b
    ensures pushed == ops.view(b) && popped == ops.view(a)
  {
    var ms := new ModelStack.New(ops, a);
    PushThenPopRestores(ops, ms.State(), b);
    var r1 := ms.Update(PushModel(b));
    pushed := ms.View();
    var r2 := ms.Update(PopModel([]));
    popped := ms.View();
  }

  /** A pop straight after construction has nothing to resume and fails. */
  method PopOnFreshFails<C, P>(ops: ModelOps<C, P>, a: C) returns (r: Result<Cmd<C, P>>, view: string)
    ensures r == Err(StackUnderflow) && view == ops.view(a)
  {
    var ms := new ModelStack.New(ops, a);
    r := ms.Update(PopModel([]));
    view := ms.View();
  }

  /** Init passes through on every call: two calls on a new model stack make
      two Init calls on its model. */
  method InitTwice<C, P>(ops: ModelOps<C, P>, m: C) returns (ms: ModelStack<C, P>)
    ensures fresh(ms) && ms.Valid() && ms.State() == Config(m, [], ZeroSize)
    ensures ms.trace == [Delivery(m, InitCall), Delivery(m, InitCall)]
  {
    ms := new ModelStack.New(ops, m);
    var c1 := ms.Init();
    var c2 := ms.Init();
  }
}
