/** The message protocol of a model stack and a pure specification of how it
    dispatches one message.

    A component (a Bubbletea model) is an opaque value of type `C`; what it
    does is given by a `ModelOps` table holding its Init, Update and View.
    Messages the stack does not interpret carry an opaque payload of type `P`.
    Every call the stack makes into a component is recorded as a `Delivery`,
    so that the order of the calls can be stated. */
module Protocol {

  /** The size carried by a window-resize message.  Its zero value (0, 0) is
      what the stack holds before any resize has arrived. */
  datatype Size = Size(width: int, height: int)

  const ZeroSize: Size := Size(0, 0)

  datatype Msg<C, P> =
    | WindowSize(size: Size)
    | PushModel(model: C)
    | PopModel(msgs: seq<Msg<C, P>>)
    | Other(payload: P)

  /** A deferred action handed back to the host.  `Emit(m)` yields `m` when the
      host runs it; `Batch` groups actions; `Opaque` is any other action a
      component returns, which the stack only passes along. */
  datatype Cmd<C, P> =
    | NoCmd
    | Emit(msg: Msg<C, P>)
    | Batch(cmds: seq<Cmd<C, P>>)
    | Opaque(token: nat)

  /** What a component's Update returns: its next version and an action. */
  datatype Reply<C, P> = Reply(model: C, cmd: Cmd<C, P>)

  /** The three operations of a component. */
  datatype ModelOps<!C, !P> = ModelOps(
    init: C -> Cmd<C, P>,
    update: (C, Msg<C, P>) -> Reply<C, P>,
    view: C -> string)

  /** One call from the stack into a component. */
  datatype Event<C, P> = InitCall | Delivered(msg: Msg<C, P>)
  datatype Delivery<C, P> = Delivery(target: C, event: Event<C, P>)

  /** The state of a model stack: the active model, the paused models with
      the most recently paused one first, and the cached resize. */
  datatype Config<C> = Config(current: C, stack: seq<C>, lastResize: Size)

  /** The effect of one message: the new state, the action returned to the
      host, and the calls made into components, in order. */
  datatype Transition<C, P> = Transition(after: Config<C>, cmd: Cmd<C, P>, trace: seq<Delivery<C, P>>)

  datatype Error = StackUnderflow

  datatype Result<T> = Ok(value: T) | Err(error: Error)

  /** The action `Push(m)` builds: once run, it yields a PushModel message
      carrying `m`. */
  function PushCmd<C, P>(m: C): (r: Cmd<C, P>)
    ensures r.Emit? && r.msg.PushModel? && r.msg.model == m
  {
    Emit(PushModel(m))
  }

  /** The action `Pop(msgs...)` builds: once run, it yields a PopModel message
      carrying `msgs`, in the order given. */
  function PopCmd<C, P>(msgs: seq<Msg<C, P>>): (r: Cmd<C, P>)
    ensures r.Emit? && r.msg.PopModel? && r.msg.msgs == msgs
  {
    Emit(PopModel(msgs))
  }

  /** Hands `msgs` one after another to a model, each to the version of the
      model the previous Update returned. */
  function Feed<C, P>(ops: ModelOps<C, P>, m: C, msgs: seq<Msg<C, P>>): (r: Run<C, P>)
    ensures |r.cmds| == |msgs| && |r.trace| == |msgs|
    decreases |msgs|
  {
    if |msgs| == 0 then Run(m, [], [])
    else
      var before := Feed(ops, m, msgs[..|msgs| - 1]);
      var reply := ops.update(before.model, msgs[|msgs| - 1]);
      Run(reply.model, before.cmds + [reply.cmd],
          before.trace + [Delivery(before.model, Delivered(msgs[|msgs| - 1]))])
  }

  datatype Run<C, P> = Run(model: C, cmds: seq<Cmd<C, P>>, trace: seq<Delivery<C, P>>)

  /** Feeding one more message extends the run by exactly the call that
      hands it to the model the earlier messages produced. */
  lemma FeedSnoc<C, P>(ops: ModelOps<C, P>, m: C, msgs: seq<Msg<C, P>>, x: Msg<C, P>)
    ensures var before := Feed(ops, m, msgs);
      var reply := ops.update(before.model, x);
      Feed(ops, m, msgs + [x]) ==
        Run(reply.model, before.cmds + [reply.cmd], before.trace + [Delivery(before.model, Delivered(x))])
  {
  }

  /** Feeding a single message is one Update of the given model. */
  lemma FeedOne<C, P>(ops: ModelOps<C, P>, m: C, x: Msg<C, P>)
    ensures var reply := ops.update(m, x);
      Feed(ops, m, [x]) == Run(reply.model, [reply.cmd], [Delivery(m, Delivered(x))])
  {
  }

  /** Feeding `xs` and then `ys` is feeding `xs + ys`: the second part
      starts from the model the first part left. */
  lemma {:induction false} FeedAppend<C, P>(ops: ModelOps<C, P>, m: C, xs: seq<Msg<C, P>>, ys: seq<Msg<C, P>>)
    ensures var first := Feed(ops, m, xs);
      var second := Feed(ops, first.model, ys);
      Feed(ops, m, xs + ys) == Run(second.model, first.cmds + second.cmds, first.trace + second.trace)
    decreases |ys|
  {
    if |ys| > 0 {
      var n := |ys|;
      FeedAppend(ops, m, xs, ys[..n - 1]);
      FeedSnoc(ops, m, xs + ys[..n - 1], ys[n - 1]);
      FeedSnoc(ops, Feed(ops, m, xs).model, ys[..n - 1], ys[n - 1]);
      assert xs + ys[..n - 1] + [ys[n - 1]] == xs + ys;
      assert ys[..n - 1] + [ys[n - 1]] == ys;
    } else {
      assert xs + ys == xs;
    }
  }

  /** The i-th message, unchanged, goes to the model that the first i
      messages produced, and the i-th action is the one that model's Update
      returned. */
  lemma {:induction false} FeedThreads<C, P>(ops: ModelOps<C, P>, m: C, msgs: seq<Msg<C, P>>, i: nat)
    requires i < |msgs|
    ensures Feed(ops, m, msgs).trace[i] == Delivery(Feed(ops, m, msgs[..i]).model, Delivered(msgs[i]))
    ensures Feed(ops, m, msgs).cmds[i] == ops.update(Feed(ops, m, msgs[..i]).model, msgs[i]).cmd
  {
    var n := |msgs|;
    if i < n - 1 {
      FeedThreads(ops, m, msgs[..n - 1], i);
      assert msgs[..n - 1][..i] == msgs[..i];
    } else {
      assert msgs[..i] == msgs[..n - 1];
    }
  }

  /** How many frames a message adds to the stack when it is dispatched. */
  function Delta<C, P>(msg: Msg<C, P>): int
  {
    match msg
    case PushModel(_) => 1
    case PopModel(_) => -1
    case _ => 0
  }

  /** Dispatch of one message by a model stack (its Update). */
  function Step<C, P>(ops: ModelOps<C, P>, s: Config<C>, msg: Msg<C, P>): (r: Result<Transition<C, P>>)
    ensures r.Err? <==> msg.PopModel? && s.stack == []
    ensures r.Err? ==> r.error == StackUnderflow
    ensures r.Ok? ==> |r.value.after.stack| == |s.stack| + Delta(msg)
  {
    match msg
    case PushModel(c) =>
      var reply := ops.update(c, WindowSize(s.lastResize));
      Ok(Transition(Config(reply.model, [s.current] + s.stack, s.lastResize),
                    Batch([ops.init(c), reply.cmd]),
                    [Delivery(c, InitCall), Delivery(c, Delivered(WindowSize(s.lastResize)))]))
    case PopModel(replay) =>
      if |s.stack| == 0 then Err(StackUnderflow)
      else
        var resumed := s.stack[0];
        var run := Feed(ops, resumed, [WindowSize(s.lastResize)] + replay);
        Ok(Transition(Config(run.model, s.stack[1..], s.lastResize),
                      Batch([ops.init(resumed)] + run.cmds),
                      [Delivery(resumed, InitCall)] + run.trace))
    case WindowSize(size) =>
      Ok(Forward(ops, s.(lastResize := size), msg))
    case Other(_) =>
      Ok(Forward(ops, s, msg))
  }

  /** Hands a message the stack does not intercept to the active model, once,
      and returns that model's action unchanged. */
  function Forward<C, P>(ops: ModelOps<C, P>, s: Config<C>, msg: Msg<C, P>): (t: Transition<C, P>)
  {
    var reply := ops.update(s.current, msg);
    Transition(Config(reply.model, s.stack, s.lastResize), reply.cmd, [Delivery(s.current, Delivered(msg))])
  }

  /** PushModel{c}: the active model is paused on top of the stack, `c` takes
      over, receives Init and then the cached resize, and the PushModel
      message itself reaches no model. */
  lemma PushTransfersControl<C, P>(ops: ModelOps<C, P>, s: Config<C>, c: C)
    ensures Step(ops, s, PushModel(c)).Ok?
    ensures var t := Step(ops, s, PushModel(c)).value;
      && t.after.stack == [s.current] + s.stack
      && t.after.current == ops.update(c, WindowSize(s.lastResize)).model
      && t.after.lastResize == s.lastResize
      && t.trace == [Delivery(c, InitCall), Delivery(c, Delivered(WindowSize(s.lastResize)))]
      && t.cmd == Batch([ops.init(c), ops.update(c, WindowSize(s.lastResize)).cmd])
      && (forall d :: d in t.trace ==> d.event != Delivered(PushModel(c)))
  {
  }

  /** PopModel{msgs} on a non-empty stack: the top paused model resumes; it
      receives Init, then the cached resize, then each of `msgs` in order,
      each handed to the version the previous Update returned, and the last
      version stays active; the batch holds the action of each call in the
      same order, 2 + |msgs| in all; and the PopModel message itself reaches
      no model. */
  lemma {:induction false} PopResumesTop<C, P>(ops: ModelOps<C, P>, s: Config<C>, msgs: seq<Msg<C, P>>)
    requires s.stack != []
    ensures Step(ops, s, PopModel(msgs)).Ok?
    ensures var t := Step(ops, s, PopModel(msgs)).value;
      && t.after.stack == s.stack[1..]
      && t.after.lastResize == s.lastResize
      && |t.trace| == 2 + |msgs|
      && t.trace[0] == Delivery(s.stack[0], InitCall)
      && t.trace[1] == Delivery(s.stack[0], Delivered(WindowSize(s.lastResize)))
      && (forall i :: 0 <= i < |msgs| ==>
            t.trace[i + 2] == Delivery(Feed(ops, s.stack[0], [WindowSize(s.lastResize)] + msgs[..i]).model,
                                       Delivered(msgs[i])))
      && t.after.current == Feed(ops, s.stack[0], [WindowSize(s.lastResize)] + msgs).model
      && t.cmd.Batch? && |t.cmd.cmds| == 2 + |msgs| && t.cmd.cmds[0] == ops.init(s.stack[0])
      && t.cmd.cmds[1] == ops.update(s.stack[0], WindowSize(s.lastResize)).cmd
      && (forall i :: 0 <= i < |msgs| ==>
            t.cmd.cmds[i + 2] == ops.update(Feed(ops, s.stack[0], [WindowSize(s.lastResize)] + msgs[..i]).model,
                                            msgs[i]).cmd)
      && (forall d :: d in t.trace ==> d.event != Delivered(PopModel(msgs)))
  {
    var all := [WindowSize(s.lastResize)] + msgs;
    var run := Feed(ops, s.stack[0], all);
    FeedThreads(ops, s.stack[0], all, 0);
    assert all[..0] == [];
    forall i | 0 <= i < |msgs|
      ensures run.trace[i + 1] == Delivery(Feed(ops, s.stack[0], [WindowSize(s.lastResize)] + msgs[..i]).model,
                                           Delivered(msgs[i]))
      ensures run.cmds[i + 1] == ops.update(Feed(ops, s.stack[0], [WindowSize(s.lastResize)] + msgs[..i]).model,
                                            msgs[i]).cmd
    {
      FeedThreads(ops, s.stack[0], all, i + 1);
      assert all[..i + 1] == [WindowSize(s.lastResize)] + msgs[..i];
    }
    forall d | d in run.trace
      ensures d.event != Delivered(PopModel(msgs))
    {
      var i :| 0 <= i < |run.trace| && run.trace[i] == d;
      FeedThreads(ops, s.stack[0], all, i);
      if i > 0 {
        assert all[i] in msgs;
      }
    }
  }

  /** A message that is neither a control message nor a resize is handed to
      the active model exactly once, unchanged, and the model's action is
      returned as it is; the stack and the cached resize stay as they were. */
  lemma ForwardsOnce<C, P>(ops: ModelOps<C, P>, s: Config<C>, p: P)
    ensures var reply := ops.update(s.current, Other(p));
      Step(ops, s, Other(p)) == Ok(Transition(Config(reply.model, s.stack, s.lastResize), reply.cmd,
                                              [Delivery(s.current, Delivered(Other(p)))]))
  {
  }

  /** A resize replaces the cached size and is also forwarded, once, to the
      active model, whose action is returned as it is. */
  lemma ResizeCachedAndForwarded<C, P>(ops: ModelOps<C, P>, s: Config<C>, z: Size)
    ensures var reply := ops.update(s.current, WindowSize(z));
      Step(ops, s, WindowSize(z)) == Ok(Transition(Config(reply.model, s.stack, z), reply.cmd,
                                                   [Delivery(s.current, Delivered(WindowSize(z)))]))
  {
  }

  /** Only a resize changes the cached size. */
  lemma ResizeOnlyChangesCache<C, P>(ops: ModelOps<C, P>, s: Config<C>, msg: Msg<C, P>)
    requires Step(ops, s, msg).Ok?
    ensures Step(ops, s, msg).value.after.lastResize == if msg.WindowSize? then msg.size else s.lastResize
  {
  }

  /** A push followed by a pop with no messages gives control back to the
      model that was active before, with the stack as it was: that very model
      is re-initialised and handed the cached resize, and is active again
      unless its own Update on that resize replaced it. */
  lemma PushThenPopRestores<C, P>(ops: ModelOps<C, P>, s: Config<C>, c: C)
    ensures Step(ops, s, PushModel(c)).Ok?
    ensures var mid := Step(ops, s, PushModel(c)).value.after;
      && Step(ops, mid, PopModel([])).Ok?
      && var t := Step(ops, mid, PopModel([])).value;
      && t.after.stack == s.stack
      && t.after.lastResize == s.lastResize
      && t.trace == [Delivery(s.current, InitCall), Delivery(s.current, Delivered(WindowSize(s.lastResize)))]
      && t.after.current == ops.update(s.current, WindowSize(s.lastResize)).model
  {
    var mid := Step(ops, s, PushModel(c)).value.after;
    PopResumesTop(ops, mid, []);
    var one: seq<Msg<C, P>> := [WindowSize(s.lastResize)];
    var run := Feed(ops, s.current, one);
    assert one[..0] == [];
    assert run.model == ops.update(s.current, WindowSize(s.lastResize)).model;
  }

  /** Once a resize to `z` has been seen, a model pushed next receives Init
      and then exactly `z` as its first message. */
  lemma ResizeThenPushReplaysSize<C, P>(ops: ModelOps<C, P>, s: Config<C>, z: Size, c: C)
    ensures Step(ops, s, WindowSize(z)).Ok?
    ensures var mid := Step(ops, s, WindowSize(z)).value.after;
      Step(ops, mid, PushModel(c)).value.trace == [Delivery(c, InitCall), Delivery(c, Delivered(WindowSize(z)))]
  {
    ResizeCachedAndForwarded(ops, s, z);
    PushTransfersControl(ops, Step(ops, s, WindowSize(z)).value.after, c);
  }

  /** With no resize ever seen, a model that regains control after a push and
      a pop with one message `x` receives Init, then the zero size, then `x`
      as its second message. */
  lemma ZeroResizeReplayedOnPop<C, P>(ops: ModelOps<C, P>, a: C, b: C, x: Msg<C, P>)
    ensures var start := Config(a, [], ZeroSize);
      var mid := Step(ops, start, PushModel(b)).value.after;
      && Step(ops, mid, PopModel([x])).Ok?
      && Step(ops, mid, PopModel([x])).value.trace ==
           [Delivery(a, InitCall), Delivery(a, Delivered(WindowSize(ZeroSize))),
            Delivery(ops.update(a, WindowSize(ZeroSize)).model, Delivered(x))]
  {
    var mid := Step(ops, Config(a, [], ZeroSize), PushModel(b)).value.after;
    FeedOne(ops, a, WindowSize(ZeroSize));
    FeedAppend(ops, a, [WindowSize(ZeroSize)], [x]);
    FeedOne(ops, ops.update(a, WindowSize(ZeroSize)).model, x);
    assert [WindowSize(ZeroSize)] + [x] == [WindowSize(ZeroSize), x];
  }

  /** The action built by `Push(m)`, once the host runs it and hands its
      message back, pauses the old active model and hands control to `m`:
      `m` receives Init, then the cached size, and the version its Update
      returns becomes active. */
  lemma PushCmdHandsControl<C, P>(ops: ModelOps<C, P>, s: Config<C>, m: C)
    ensures var t := Step(ops, s, PushCmd<C, P>(m).msg);
      && t.Ok?
      && t.value.after.stack == [s.current] + s.stack
      && t.value.after.current == ops.update(m, WindowSize(s.lastResize)).model
      && t.value.trace == [Delivery(m, InitCall), Delivery(m, Delivered(WindowSize(s.lastResize)))]
  {
    PushTransfersControl(ops, s, m);
  }

  /** The action built by `Pop(msgs...)`, once resolved and handed back,
      resumes the top paused model, which receives Init, the resize and then
      `msgs`, each handed to the version the previous Update returned; on an
      empty stack it fails with a stack underflow. */
  lemma PopCmdReturnsControl<C, P>(ops: ModelOps<C, P>, s: Config<C>, msgs: seq<Msg<C, P>>)
    ensures var t := Step(ops, s, PopCmd<C, P>(msgs).msg);
      && (s.stack == [] ==> t == Err(StackUnderflow))
      && (s.stack != [] ==>
            && t.Ok?
            && t.value.after.stack == s.stack[1..]
            && t.value.after.current == Feed(ops, s.stack[0], [WindowSize(s.lastResize)] + msgs).model
            && t.value.trace[..2] == [Delivery(s.stack[0], InitCall),
                                      Delivery(s.stack[0], Delivered(WindowSize(s.lastResize)))]
            && forall i :: 0 <= i < |msgs| ==>
                 t.value.trace[i + 2] == Delivery(Feed(ops, s.stack[0], [WindowSize(s.lastResize)] + msgs[..i]).model,
                                                  Delivered(msgs[i])))
  {
    if s.stack != [] {
      PopResumesTop(ops, s, msgs);
    }
  }

  /** The net number of frames a run of messages adds to the stack. */
  function Balance<C, P>(msgs: seq<Msg<C, P>>): int
    decreases |msgs|
  {
    if |msgs| == 0 then 0 else Balance(msgs[..|msgs| - 1]) + Delta(msgs[|msgs| - 1])
  }

  /** The host handing a model stack `msgs` one at a time; the first stack
      underflow ends the run. */
  function Session<C, P>(ops: ModelOps<C, P>, s: Config<C>, msgs: seq<Msg<C, P>>): (r: Result<Config<C>>)
    decreases |msgs|
  {
    if |msgs| == 0 then Ok(s)
    else
      match Session(ops, s, msgs[..|msgs| - 1])
      case Err(e) => Err(e)
      case Ok(mid) =>
        match Step(ops, mid, msgs[|msgs| - 1])
        case Err(e) => Err(e)
        case Ok(t) => Ok(t.after)
  }

  /** The stack grows by one frame per push and shrinks by one per pop, and a
      run of messages fails exactly when, at some point, more pops than the
      stack's frames plus the pushes before them have arrived. */
  lemma {:induction false} SessionDepth<C, P>(ops: ModelOps<C, P>, s: Config<C>, msgs: seq<Msg<C, P>>)
    ensures Session(ops, s, msgs).Ok? <==> forall k :: 0 <= k <= |msgs| ==> |s.stack| + Balance(msgs[..k]) >= 0
    ensures Session(ops, s, msgs).Ok? ==> |Session(ops, s, msgs).value.stack| == |s.stack| + Balance(msgs)
  {
    var n := |msgs|;
    if n == 0 {
      assert msgs[..0] == msgs;
    } else {
      var pre := msgs[..n - 1];
      SessionDepth(ops, s, pre);
      assert forall k :: 0 <= k <= n - 1 ==> pre[..k] == msgs[..k];
      assert msgs[..n] == msgs;
      if Session(ops, s, pre).Ok? {
        var mid := Session(ops, s, pre).value;
        if Step(ops, mid, msgs[n - 1]).Err? {
          assert |s.stack| + Balance(msgs[..n]) < 0;
        }
      } else {
        var k :| 0 <= k <= n - 1 && |s.stack| + Balance(pre[..k]) < 0;
        assert |s.stack| + Balance(msgs[..k]) < 0;
      }
    }
  }
}
