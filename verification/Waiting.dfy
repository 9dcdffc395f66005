/** Prompts that wait on disk while a session is blocked (internal/waitq/waitq.go, internal/pipeline/deliver.go):
    nothing acknowledged disappears, and one drainer per window sends in queue order. */
module Waiting {
  import opened Wrappers
  import opened Ordering

  datatype Prompt = Prompt(id: string, at: Time, windowID: string, sessionID: string, text: string)

  function PromptKey(p: Prompt): Key {
    Key(p.at, p.id)
  }

  /** What a window has received, in order. */
  datatype Sent = Direct(windowID: string, text: string) | FromQueue(prompt: Prompt)

  /** Work in progress, all of it lost in a crash. */
  datatype Worker =
    | Sending(windowID: string, text: string)
    | Looking(windowID: string)
    | Holding(windowID: string, prompt: Prompt)
    | Delivered(windowID: string, prompt: Prompt)
    | Keeping(windowID: string, rest: seq<Prompt>)

  /** `acked` and `clock` are history: the prompts whose caller was told they wait, and the latest
      time one was given. */
  datatype System = System(waiting: map<string, Prompt>, kept: map<string, Prompt>, sent: seq<Sent>,
                           workers: seq<Worker>,
                           acked: set<Prompt>, clock: Time)

  datatype Step =
    | Deliver(prompt: Prompt, readable: bool, blocked: bool, appended: bool)
    | SendDirect(worker: nat, works: bool)
    | DrainPeek(worker: nat, readable: bool, head: Option<Prompt>)
    | DrainSend(worker: nat, works: bool, readable: bool, rest: seq<Prompt>)
    | DrainRemove(worker: nat, works: bool)
    | KeepNext(worker: nat, written: bool, removed: bool)
    | StartKeep(windowID: string, rest: seq<Prompt>)
    | StartDrain(windowID: string)
    | Crash

  ghost predicate WaitsFor(s: System, window: string, p: Prompt) {
    p.id in s.waiting && s.waiting[p.id] == p && p.windowID == window
  }

  predicate Empty(s: System, window: string) {
    forall id | id in s.waiting :: s.waiting[id].windowID != window
  }

  /** The first waiting prompt of a window in queue order. */
  ghost predicate IsHead(s: System, window: string, p: Prompt) {
    WaitsFor(s, window, p) && forall q | WaitsFor(s, window, q) && q != p :: Before(PromptKey(p), PromptKey(q))
  }

  /** The waiting prompts of one window in queue order. */
  ghost predicate QueueIn(waiting: map<string, Prompt>, window: string, ps: seq<Prompt>) {
    && Sorted(ps, PromptKey)
    && forall p :: p in ps <==> p.id in waiting && waiting[p.id] == p && p.windowID == window
  }

  ghost predicate IsQueue(s: System, window: string, ps: seq<Prompt>) {
    QueueIn(s.waiting, window, ps)
  }

  ghost predicate Enabled(s: System, step: Step) {
    match step
    case Deliver(p, _, _, _) =>
      p.id != "" && p.windowID != "" && p.id !in s.waiting && forall q | q in s.acked :: q.id != p.id
    case SendDirect(i, _) => i < |s.workers| && s.workers[i].Sending?
    case DrainPeek(i, readable, head) =>
      i < |s.workers| && s.workers[i].Looking? &&
      (readable ==>
         if head.Some? then IsHead(s, s.workers[i].windowID, head.value) else Empty(s, s.workers[i].windowID))
    case DrainSend(i, works, readable, rest) =>
      i < |s.workers| && s.workers[i].Holding? && (!works && readable ==> IsQueue(s, s.workers[i].windowID, rest))
    case DrainRemove(i, _) => i < |s.workers| && s.workers[i].Delivered?
    case KeepNext(i, _, _) => i < |s.workers| && s.workers[i].Keeping?
    case StartKeep(window, rest) => IsQueue(s, window, rest)
    case StartDrain(window) => true
    case Crash => true
  }

  function WithWorker(s: System, i: nat, w: Option<Worker>): System
    requires i < |s.workers|
  {
    s.(workers := s.workers[..i] + (if w.Some? then [w.value] else []) + s.workers[i + 1..])
  }

  function Next(s: System, step: Step): System
    requires Enabled(s, step)
  {
    match step
    case Deliver(p, readable, blocked, appended) =>
      if !readable then s
      else if Empty(s, p.windowID) && !blocked then s.(workers := s.workers + [Sending(p.windowID, p.text)])
      else if !appended then s
      else
        s.(waiting := s.waiting[p.id := p], acked := s.acked + {p}, clock := if p.at > s.clock then p.at else s.clock,
           workers := if Empty(s, p.windowID) then s.workers + [Looking(p.windowID)] else s.workers)
    case SendDirect(i, works) =>
      var w := s.workers[i];
      var s' := WithWorker(s, i, None);
      if works then s'.(sent := s.sent + [Direct(w.windowID, w.text)]) else s'
    case DrainPeek(i, readable, head) =>
      if !readable || head.None? then WithWorker(s, i, None)
      else WithWorker(s, i, Some(Holding(s.workers[i].windowID, head.value)))
    case DrainSend(i, works, readable, rest) =>
      var w := s.workers[i];
      if works then WithWorker(s, i, Some(Delivered(w.windowID, w.prompt))).(sent := s.sent + [FromQueue(w.prompt)])
      else WithWorker(s, i, if readable then Some(Keeping(w.windowID, rest)) else None)
    case DrainRemove(i, works) =>
      var w := s.workers[i];
      if works then WithWorker(s, i, Some(Looking(w.windowID))).(waiting := s.waiting - {w.prompt.id})
      else WithWorker(s, i, None)
    case KeepNext(i, written, removed) =>
      var w := s.workers[i];
      if w.rest == [] || !written then WithWorker(s, i, None)
      else
        var p := w.rest[0];
        var s' := s.(kept := s.kept[p.id := p]);
        if !removed then WithWorker(s', i, None)
        else WithWorker(s', i, Some(Keeping(w.windowID, w.rest[1..]))).(waiting := s.waiting - {p.id})
    case StartKeep(window, rest) => s.(workers := s.workers + [Keeping(window, rest)])
    case StartDrain(window) => s.(workers := s.workers + [Looking(window)])
    case Crash => s.(workers := [])
  }

  const INITIAL := System(map[], map[], [], [], {}, 0)

  ghost predicate PossibleRun(s: System, steps: seq<Step>)
    decreases |steps|
  {
    steps != [] ==> Enabled(s, steps[0]) && PossibleRun(Next(s, steps[0]), steps[1..])
  }

  ghost function After(s: System, steps: seq<Step>): System
    requires PossibleRun(s, steps)
    decreases |steps|
  {
    if steps == [] then s else After(Next(s, steps[0]), steps[1..])
  }

  // ----- conservation -----

  /** A prompt is waiting, was sent, or is kept as undelivered, each time with its own content. */
  ghost predicate Accounted(s: System, p: Prompt) {
    || (p.id in s.waiting && s.waiting[p.id] == p)
    || FromQueue(p) in s.sent
    || (p.id in s.kept && s.kept[p.id] == p)
  }

  ghost predicate SoundWorker(s: System, w: Worker) {
    && (w.Holding? ==> w.prompt in s.acked)
    && (w.Delivered? ==> w.prompt in s.acked && FromQueue(w.prompt) in s.sent)
    && (w.Keeping? ==> forall p | p in w.rest :: p in s.acked)
  }

  ghost predicate Invariant(s: System) {
    && (forall p, q | p in s.acked && q in s.acked && p.id == q.id :: p == q)
    && (forall id | id in s.waiting :: s.waiting[id].id == id && s.waiting[id] in s.acked)
    && (forall p | p in s.acked :: Accounted(s, p) && p.at <= s.clock)
    && (forall w | w in s.workers :: SoundWorker(s, w))
  }

  lemma SoundWorkersStay(s: System, i: nat, w: Option<Worker>, n: System)
    requires Invariant(s) && i < |s.workers| && n.workers == WithWorker(s, i, w).workers
    requires s.acked <= n.acked && s.sent <= n.sent && (w.Some? ==> SoundWorker(n, w.value))
    ensures forall x | x in n.workers :: SoundWorker(n, x)
  {
    forall x | x in n.workers ensures SoundWorker(n, x) {
      if x in s.workers { assert SoundWorker(s, x); }
    }
  }

  lemma DeliverKeeps(s: System, step: Step)
    requires Invariant(s) && Enabled(s, step) && step.Deliver?
    ensures Invariant(Next(s, step))
  {
    var n := Next(s, step);
    forall p | p in n.acked ensures Accounted(n, p) && p.at <= n.clock {
      if p in s.acked { assert Accounted(s, p); }
    }
    forall w | w in n.workers ensures SoundWorker(n, w) {
      if w in s.workers { assert SoundWorker(s, w); }
    }
  }

  lemma DrainKeeps(s: System, step: Step)
    requires Invariant(s) && Enabled(s, step)
    requires step.SendDirect? || step.DrainPeek? || step.DrainSend? || step.DrainRemove?
    ensures Invariant(Next(s, step))
  {
    var n := Next(s, step);
    var i := step.worker;
    var w := s.workers[i];
    assert SoundWorker(s, w);
    forall p | p in n.acked ensures Accounted(n, p) {
      assert Accounted(s, p);
    }
    match step
    case SendDirect(_, _) => SoundWorkersStay(s, i, None, n);
    case DrainPeek(_, readable, head) =>
      SoundWorkersStay(s, i, if readable && head.Some? then Some(Holding(w.windowID, head.value)) else None, n);
    case DrainSend(_, works, readable, rest) =>
      if works {
        assert n.sent[|s.sent|] == FromQueue(w.prompt);
        SoundWorkersStay(s, i, Some(Delivered(w.windowID, w.prompt)), n);
      } else {
        SoundWorkersStay(s, i, if readable then Some(Keeping(w.windowID, rest)) else None, n);
      }
    case DrainRemove(_, works) => SoundWorkersStay(s, i, if works then Some(Looking(w.windowID)) else None, n);
  }

  lemma KeepKeeps(s: System, step: Step)
    requires Invariant(s) && Enabled(s, step) && step.KeepNext?
    ensures Invariant(Next(s, step))
  {
    var n := Next(s, step);
    var i := step.worker;
    var w := s.workers[i];
    assert SoundWorker(s, w);
    if w.rest == [] || !step.written {
      SoundWorkersStay(s, i, None, n);
      forall p | p in n.acked ensures Accounted(n, p) { assert Accounted(s, p); }
    } else {
      var first := w.rest[0];
      assert first in w.rest;
      forall p | p in n.acked ensures Accounted(n, p) {
        assert Accounted(s, p);
        if p.id == first.id { assert p == first; }
      }
      assert forall p | p in w.rest[1..] :: p in w.rest;
      SoundWorkersStay(s, i, if step.removed then Some(Keeping(w.windowID, w.rest[1..])) else None, n);
    }
  }

  lemma StepKeeps(s: System, step: Step)
    requires Invariant(s) && Enabled(s, step)
    ensures Invariant(Next(s, step))
  {
    if step.Deliver? { DeliverKeeps(s, step); }
    else if step.KeepNext? { KeepKeeps(s, step); }
    else if step.StartKeep? || step.StartDrain? || step.Crash? {
      var n := Next(s, step);
      forall p | p in n.acked ensures Accounted(n, p) { assert Accounted(s, p); }
      forall w | w in n.workers ensures SoundWorker(n, w) {
        if w in s.workers { assert SoundWorker(s, w); }
      }
    }
    else { DrainKeeps(s, step); }
  }

  lemma {:induction false} RunKeeps(s: System, steps: seq<Step>)
    requires Invariant(s) && PossibleRun(s, steps)
    ensures Invariant(After(s, steps)) && s.acked <= After(s, steps).acked
    decreases |steps|
  {
    if steps != [] {
      StepKeeps(s, steps[0]);
      RunKeeps(Next(s, steps[0]), steps[1..]);
    }
  }

  /** Conservation: a prompt acknowledged as queued is at every later time waiting, sent or kept as undelivered, with
      any write failing, any number of drainers overlapping and crashes anywhere. */
  lemma PromptsAreConserved(before: seq<Step>, after: seq<Step>, p: Prompt)
    requires PossibleRun(INITIAL, before) && p in After(INITIAL, before).acked
    requires PossibleRun(After(INITIAL, before), after)
    ensures Accounted(After(After(INITIAL, before), after), p)
  {
    RunKeeps(INITIAL, before);
    RunKeeps(After(INITIAL, before), after);
  }

  /** No direct send overtakes: one is decided only when every acknowledged prompt of the window was sent or kept. */
  lemma DirectSendWaitsItsTurn(steps: seq<Step>, step: Step, p: Prompt)
    requires PossibleRun(INITIAL, steps) && step.Deliver? && Enabled(After(INITIAL, steps), step)
    requires var s, n := After(INITIAL, steps), Next(After(INITIAL, steps), step);
             |n.workers| > |s.workers| && n.acked == s.acked && p in s.acked && p.windowID == step.prompt.windowID
    ensures var s := After(INITIAL, steps); FromQueue(p) in s.sent || (p.id in s.kept && s.kept[p.id] == p)
  {
    RunKeeps(INITIAL, steps);
    assert Accounted(After(INITIAL, steps), p);
  }

  // ----- order -----

  predicate DrainsWindow(w: Worker, window: string) {
    (w.Looking? || w.Holding? || w.Delivered?) && w.windowID == window
  }

  ghost predicate OneDrainer(s: System) {
    forall i, j | 0 <= i < j < |s.workers| && !s.workers[i].Sending? && !s.workers[i].Keeping? ::
      !DrainsWindow(s.workers[j], s.workers[i].windowID)
  }

  /** Times are handed out strictly increasing. */
  predicate Ticks(s: System, step: Step) {
    step.Deliver? ==> step.prompt.at > s.clock
  }

  ghost predicate OrderlyRun(s: System, steps: seq<Step>)
    requires PossibleRun(s, steps)
    decreases |steps|
  {
    OneDrainer(s) && (steps != [] ==> Ticks(s, steps[0]) && OrderlyRun(Next(s, steps[0]), steps[1..]))
  }

  ghost predicate SentBefore(sent: seq<Sent>, p: Prompt) {
    forall x | x in sent && x.FromQueue? && x.prompt.windowID == p.windowID :: x.prompt.at <= p.at
  }

  /** The queued sends of each window come in the order of their times. */
  ghost predicate InOrder(sent: seq<Sent>) {
    forall i, j | 0 <= i < j < |sent| && sent[i].FromQueue? && sent[j].FromQueue? &&
                  sent[i].prompt.windowID == sent[j].prompt.windowID :: sent[i].prompt.at <= sent[j].prompt.at
  }

  ghost predicate NoneBefore(waiting: map<string, Prompt>, p: Prompt) {
    forall id | id in waiting && waiting[id].windowID == p.windowID :: p.at <= waiting[id].at
  }

  ghost predicate HoldsFirst(s: System, w: Worker)
    requires w.Holding?
  {
    w.prompt.windowID == w.windowID && SentBefore(s.sent, w.prompt) && NoneBefore(s.waiting, w.prompt)
  }

  ghost predicate Orderly(s: System) {
    && InOrder(s.sent)
    && (forall p, q | p in s.acked && q in s.acked && p.at == q.at :: p == q)
    && (forall x | x in s.sent && x.FromQueue? :: x.prompt in s.acked)
    && (forall id | id in s.waiting :: SentBefore(s.sent, s.waiting[id]))
    && (forall w | w in s.workers && w.Holding? :: HoldsFirst(s, w))
  }

  lemma SentOneMore(sent: seq<Sent>, x: Prompt, p: Prompt)
    requires SentBefore(sent, p) && (x.windowID == p.windowID ==> x.at <= p.at)
    ensures SentBefore(sent + [FromQueue(x)], p)
  {
  }

  lemma InOrderOneMore(sent: seq<Sent>, x: Prompt)
    requires InOrder(sent) && SentBefore(sent, x)
    ensures InOrder(sent + [FromQueue(x)])
  {
    assert forall i | 0 <= i < |sent| :: sent[i] in sent;
  }

  lemma DirectChangesNothing(sent: seq<Sent>, window: string, text: string, p: Prompt)
    ensures SentBefore(sent, p) ==> SentBefore(sent + [Direct(window, text)], p)
    ensures InOrder(sent) ==> InOrder(sent + [Direct(window, text)])
  {
  }

  lemma SentBeforeNewest(s: System, p: Prompt)
    requires Invariant(s) && Orderly(s) && p.at > s.clock
    ensures SentBefore(s.sent, p)
  {
    forall x | x in s.sent && x.FromQueue? ensures x.prompt.at <= p.at { assert x.prompt in s.acked; }
  }

  /** A prompt is new to the queue and the newest of all. */
  lemma DeliverAdds(s: System, step: Step)
    requires Enabled(s, step) && step.Deliver?
    ensures var n := Next(s, step);
            && n.sent == s.sent
            && (|| (n.waiting == s.waiting && n.acked == s.acked)
                || (n.waiting == s.waiting[step.prompt.id := step.prompt] && n.acked == s.acked + {step.prompt}))
            && forall w | w in n.workers && w.Holding? :: w in s.workers
  {
  }

  lemma DeliverHoldsFirst(s: System, step: Step, n: System, w: Worker)
    requires Invariant(s) && Orderly(s) && Ticks(s, step) && step.Deliver? && w in s.workers && w.Holding?
    requires n.sent == s.sent && (n.waiting == s.waiting || n.waiting == s.waiting[step.prompt.id := step.prompt])
    ensures HoldsFirst(n, w)
  {
    assert HoldsFirst(s, w) && SoundWorker(s, w);
  }

  lemma DeliverIsOrderly(s: System, step: Step)
    requires Invariant(s) && Orderly(s) && Enabled(s, step) && Ticks(s, step) && step.Deliver?
    ensures Orderly(Next(s, step))
  {
    var n := Next(s, step);
    DeliverAdds(s, step);
    forall id | id in n.waiting ensures SentBefore(n.sent, n.waiting[id]) {
      if n.waiting[id] == step.prompt { SentBeforeNewest(s, step.prompt); }
      else { assert n.waiting[id] == s.waiting[id]; }
    }
    forall w | w in n.workers && w.Holding? ensures HoldsFirst(n, w) {
      DeliverHoldsFirst(s, step, n, w);
    }
    forall p, q | p in n.acked && q in n.acked && p.at == q.at ensures p == q {
      assert p in s.acked ==> p.at <= s.clock;
      assert q in s.acked ==> q.at <= s.clock;
    }
  }

  /** With one drainer, no other worker holds a prompt of the window being sent to. */
  lemma SendingAlone(s: System, i: nat, v: Worker)
    requires OneDrainer(s) && i < |s.workers| && s.workers[i].Holding?
    requires v.Holding? && v in s.workers[..i] + s.workers[i + 1..]
    ensures v.windowID != s.workers[i].windowID && v in s.workers
  {
    var others := s.workers[..i] + s.workers[i + 1..];
    var k :| 0 <= k < |others| && others[k] == v;
    var j := if k < i then k else k + 1;
    assert s.workers[j] == v && j != i;
    var lo, hi := if i < j then i else j, if i < j then j else i;
    assert !DrainsWindow(s.workers[hi], s.workers[lo].windowID);
  }

  lemma SendIsOrderly(s: System, step: Step)
    requires Invariant(s) && Orderly(s) && OneDrainer(s) && Enabled(s, step) && step.DrainSend? && step.works
    ensures Orderly(Next(s, step))
  {
    var n := Next(s, step);
    var i := step.worker;
    var w := s.workers[i];
    assert w in s.workers && SoundWorker(s, w) && HoldsFirst(s, w);
    assert n.sent == s.sent + [FromQueue(w.prompt)];
    InOrderOneMore(s.sent, w.prompt);
    forall id | id in n.waiting ensures SentBefore(n.sent, n.waiting[id]) {
      SentOneMore(s.sent, w.prompt, s.waiting[id]);
    }
    forall v | v in n.workers && v.Holding? ensures HoldsFirst(n, v) {
      assert v in s.workers[..i] + s.workers[i + 1..];
      SendingAlone(s, i, v);
      assert HoldsFirst(s, v);
      SentOneMore(s.sent, w.prompt, v.prompt);
    }
  }

  lemma PeekIsOrderly(s: System, step: Step)
    requires Invariant(s) && Orderly(s) && Enabled(s, step) && step.DrainPeek?
    ensures Orderly(Next(s, step))
  {
    var n := Next(s, step);
    forall w | w in n.workers && w.Holding? ensures HoldsFirst(n, w) {
      if w in s.workers {
        assert HoldsFirst(s, w);
      } else {
        var p := w.prompt;
        assert step.head == Some(p) && SentBefore(s.sent, s.waiting[p.id]);
        forall id | id in s.waiting && s.waiting[id].windowID == p.windowID ensures p.at <= s.waiting[id].at {
          assert WaitsFor(s, p.windowID, s.waiting[id]);
        }
      }
    }
  }

  lemma OtherIsOrderly(s: System, step: Step)
    requires Invariant(s) && Orderly(s) && Enabled(s, step)
    requires !step.Deliver? && !step.DrainPeek? && !(step.DrainSend? && step.works)
    ensures Orderly(Next(s, step))
  {
    var n := Next(s, step);
    OtherShrinks(s, step);
    forall id | id in n.waiting ensures SentBefore(n.sent, n.waiting[id]) {
      StillSentBefore(s, n, n.waiting[id]);
    }
    forall w | w in n.workers && w.Holding? ensures HoldsFirst(n, w) {
      assert HoldsFirst(s, w);
      StillSentBefore(s, n, w.prompt);
    }
    if n.sent != s.sent {
      var x := n.sent[|s.sent|];
      DirectChangesNothing(s.sent, x.windowID, x.text, Prompt("", 0, "", "", ""));
    }
  }

  /** At most a direct send is added; nothing begins to wait or is held anew. */
  ghost predicate Shrinks(s: System, n: System) {
    && n.acked == s.acked
    && (n.sent == s.sent || exists window, text :: n.sent == s.sent + [Direct(window, text)])
    && (forall id | id in n.waiting :: id in s.waiting && n.waiting[id] == s.waiting[id])
    && (forall w | w in n.workers && w.Holding? :: w in s.workers)
  }

  lemma OtherShrinks(s: System, step: Step)
    requires Enabled(s, step) && !step.Deliver? && !step.DrainPeek? && !(step.DrainSend? && step.works)
    ensures Shrinks(s, Next(s, step))
  {
    if step.SendDirect? && step.works {
      var w := s.workers[step.worker];
      assert Next(s, step).sent == s.sent + [Direct(w.windowID, w.text)];
    }
  }

  lemma StillSentBefore(s: System, n: System, p: Prompt)
    requires Shrinks(s, n) && SentBefore(s.sent, p)
    ensures SentBefore(n.sent, p)
  {
  }

  lemma {:induction false} RunIsOrderly(s: System, steps: seq<Step>)
    requires Invariant(s) && Orderly(s) && PossibleRun(s, steps) && OrderlyRun(s, steps)
    ensures Orderly(After(s, steps))
    decreases |steps|
  {
    if steps != [] {
      var step := steps[0];
      StepKeeps(s, step);
      if step.Deliver? { DeliverIsOrderly(s, step); }
      else if step.DrainSend? && step.works { SendIsOrderly(s, step); }
      else if step.DrainPeek? { PeekIsOrderly(s, step); }
      else { OtherIsOrderly(s, step); }
      RunIsOrderly(Next(s, step), steps[1..]);
    }
  }

  /** Order: with one drainer per window and strictly increasing times a window receives its queued prompts in the
      order they were queued; a prompt sent twice across a restart is sent twice in a row. */
  lemma QueueOrderIsKept(steps: seq<Step>, i: nat, j: nat)
    requires PossibleRun(INITIAL, steps) && OrderlyRun(INITIAL, steps)
    requires var sent := After(INITIAL, steps).sent;
             i < j < |sent| && sent[i].FromQueue? && sent[j].FromQueue?
               && sent[i].prompt.windowID == sent[j].prompt.windowID
    ensures var sent := After(INITIAL, steps).sent;
            sent[i].prompt.at < sent[j].prompt.at || sent[i].prompt == sent[j].prompt
  {
    RunIsOrderly(INITIAL, steps);
    var sent := After(INITIAL, steps).sent;
    assert sent[i] in sent && sent[j] in sent;
  }

  /** A delivery starts a second drainer exactly when it queues the only waiting prompt of a window whose drainer has
      not yet noticed that the queue ran empty. */
  lemma SecondDrainerExactly(s: System, step: Step)
    requires OneDrainer(s) && Enabled(s, step) && step.Deliver?
    ensures !OneDrainer(Next(s, step)) <==>
            && step.readable && step.appended && step.blocked && Empty(s, step.prompt.windowID)
            && exists w | w in s.workers :: DrainsWindow(w, step.prompt.windowID)
  {
    var n := Next(s, step);
    var starts := step.readable && step.appended && step.blocked && Empty(s, step.prompt.windowID);
    if starts {
      var last := |s.workers|;
      assert n.workers[last] == Looking(step.prompt.windowID);
      assert forall i | 0 <= i < last :: n.workers[i] == s.workers[i];
      if w :| w in s.workers && DrainsWindow(w, step.prompt.windowID) {
        var i :| 0 <= i < last && s.workers[i] == w;
        assert n.workers[i] == w && DrainsWindow(n.workers[last], n.workers[i].windowID);
      } else {
        forall i, j | 0 <= i < j < |n.workers| && !n.workers[i].Sending? && !n.workers[i].Keeping?
          ensures !DrainsWindow(n.workers[j], n.workers[i].windowID)
        {
          assert s.workers[i] in s.workers;
        }
      }
    } else {
      forall i, j | 0 <= i < j < |n.workers| && !n.workers[i].Sending? && !n.workers[i].Keeping?
        ensures !DrainsWindow(n.workers[j], n.workers[i].windowID)
      {
        assert i < |s.workers| && n.workers[i] == s.workers[i];
        if j < |s.workers| { assert n.workers[j] == s.workers[j]; }
      }
    }
  }

  /** A prompt waits and is drained, and the next one comes before the drainer has noticed that the queue ran empty. */
  function UpToTwoLookers(p: Prompt, q: Prompt): seq<Step> {
    [Deliver(p, true, true, true), DrainPeek(0, true, Some(p)), DrainSend(0, true, true, []), DrainRemove(0, true),
     Deliver(q, true, true, true)]
  }

  function BothSend(q: Prompt): seq<Step> {
    [DrainPeek(0, true, Some(q)), DrainPeek(1, true, Some(q)), DrainSend(0, true, true, []),
     DrainSend(1, true, true, [])]
  }

  ghost predicate OneWaits(s: System, p: Prompt) {
    s.waiting == map[p.id := p]
  }

  lemma OnlyOneIsHead(s: System, p: Prompt)
    requires OneWaits(s, p)
    ensures IsHead(s, p.windowID, p)
  {
  }

  lemma {:induction false} RunConcat(s: System, a: seq<Step>, b: seq<Step>)
    requires PossibleRun(s, a) && PossibleRun(After(s, a), b)
    ensures PossibleRun(s, a + b) && After(s, a + b) == After(After(s, a), b)
    decreases |a|
  {
    if a == [] {
      assert a + b == b;
    } else {
      assert (a + b)[0] == a[0] && (a + b)[1..] == a[1..] + b;
      RunConcat(Next(s, a[0]), a[1..], b);
    }
  }

  lemma RunFour(s: System, a: Step, b: Step, c: Step, d: Step)
    requires Enabled(s, a) && Enabled(Next(s, a), b) && Enabled(Next(Next(s, a), b), c)
    requires Enabled(Next(Next(Next(s, a), b), c), d)
    ensures PossibleRun(s, [a, b, c, d]) && After(s, [a, b, c, d]) == Next(Next(Next(Next(s, a), b), c), d)
  {
    var s1, s2, s3 := Next(s, a), Next(Next(s, a), b), Next(Next(Next(s, a), b), c);
    var s4 := Next(s3, d);
    assert [a, b, c, d][1..] == [b, c, d] && [b, c, d][1..] == [c, d] && [c, d][1..] == [d] && [d][1..] == [];
    assert PossibleRun(s4, []) && After(s4, []) == s4;
    assert PossibleRun(s3, [d]) && After(s3, [d]) == s4;
    assert PossibleRun(s2, [c, d]) && After(s2, [c, d]) == s4;
    assert PossibleRun(s1, [b, c, d]) && After(s1, [b, c, d]) == s4;
  }

  function DrainedOnce(p: Prompt): seq<Step> {
    [Deliver(p, true, true, true), DrainPeek(0, true, Some(p)), DrainSend(0, true, true, []), DrainRemove(0, true)]
  }

  lemma FirstIsSent(p: Prompt)
    requires p.id != "" && p.windowID != ""
    ensures Enabled(INITIAL, DrainedOnce(p)[0]) && Enabled(Next(INITIAL, DrainedOnce(p)[0]), DrainedOnce(p)[1])
    ensures var s := Next(Next(INITIAL, DrainedOnce(p)[0]), DrainedOnce(p)[1]);
            s.workers == [Holding(p.windowID, p)] && OneWaits(s, p) && s.sent == [] && s.acked == {p}
  {
    var s1 := Next(INITIAL, DrainedOnce(p)[0]);
    assert OneWaits(s1, p) && s1.workers == [Looking(p.windowID)];
    OnlyOneIsHead(s1, p);
  }

  lemma FirstIsDrained(p: Prompt)
    requires p.id != "" && p.windowID != ""
    ensures PossibleRun(INITIAL, DrainedOnce(p))
    ensures var s := After(INITIAL, DrainedOnce(p));
            s.workers == [Looking(p.windowID)] && s.waiting == map[] && s.sent == [FromQueue(p)] && s.acked == {p}
  {
    var steps := DrainedOnce(p);
    FirstIsSent(p);
    var s2 := Next(Next(INITIAL, steps[0]), steps[1]);
    var s3 := Next(s2, steps[2]);
    assert s3.workers == [Delivered(p.windowID, p)] && s3.sent == [FromQueue(p)];
    RunFour(INITIAL, steps[0], steps[1], steps[2], steps[3]);
  }

  lemma TwoLookers(p: Prompt, q: Prompt)
    requires p.id != "" && q.id != "" && p.id != q.id && p.windowID == q.windowID != ""
    ensures PossibleRun(INITIAL, UpToTwoLookers(p, q))
    ensures var s := After(INITIAL, UpToTwoLookers(p, q));
            s.workers == [Looking(q.windowID), Looking(q.windowID)] && OneWaits(s, q) && s.sent == [FromQueue(p)]
  {
    FirstIsDrained(p);
    var s, e := After(INITIAL, DrainedOnce(p)), Deliver(q, true, true, true);
    assert Enabled(s, e) && PossibleRun(s, [e]);
    assert [e][1..] == [] && After(s, [e]) == Next(s, e);
    RunConcat(INITIAL, DrainedOnce(p), [e]);
    assert UpToTwoLookers(p, q) == DrainedOnce(p) + [e];
  }

  /** Two drainers that overlap send one prompt twice, and a run from the empty queue leads there. */
  lemma TwoDrainersSendTwice(p: Prompt, q: Prompt)
    requires p.id != "" && q.id != "" && p.id != q.id && p.windowID == q.windowID != ""
    ensures var steps := UpToTwoLookers(p, q) + BothSend(q);
            && PossibleRun(INITIAL, steps)
            && After(INITIAL, steps).sent == [FromQueue(p), FromQueue(q), FromQueue(q)]
  {
    TwoLookers(p, q);
    var s := After(INITIAL, UpToTwoLookers(p, q));
    var a, b, c, d := DrainPeek(0, true, Some(q)), DrainPeek(1, true, Some(q)), DrainSend(0, true, true, []),
        DrainSend(1, true, true, []);
    OnlyOneIsHead(s, q);
    var s1 := Next(s, a);
    assert s1.workers == [Holding(q.windowID, q), Looking(q.windowID)];
    OnlyOneIsHead(s1, q);
    var s2 := Next(s1, b);
    assert s2.workers == [Holding(q.windowID, q), Holding(q.windowID, q)];
    var s3 := Next(s2, c);
    assert s3.workers == [Delivered(q.windowID, q), Holding(q.windowID, q)];
    var s4 := Next(s3, d);
    assert s4.sent == [FromQueue(p)] + [FromQueue(q)] + [FromQueue(q)] == [FromQueue(p), FromQueue(q), FromQueue(q)];
    RunFour(s, a, b, c, d);
    RunConcat(INITIAL, UpToTwoLookers(p, q), BothSend(q));
  }

  // ----- the directory as the source runs it -----

  /** Every prompt gone from `before` belonged to the window and is kept aside as it was; the others are untouched. */
  ghost predicate MovedAside(before: map<string, Prompt>, waiting: map<string, Prompt>,
                             undelivered: map<string, Prompt>,
                             window: string)
  {
    && (forall id | id in waiting :: id in before && waiting[id] == before[id])
    && (forall id | id in before && id !in waiting ::
          before[id].windowID == window && id in undelivered && undelivered[id] == before[id])
  }

  lemma MovedOneMore(before: map<string, Prompt>, waiting: map<string, Prompt>, undelivered: map<string, Prompt>,
                     p: Prompt)
    requires MovedAside(before, waiting, undelivered, p.windowID)
    requires p.id in before && before[p.id] == p
    ensures MovedAside(before, waiting, undelivered[p.id := p], p.windowID)
    ensures MovedAside(before, waiting - {p.id}, undelivered[p.id := p], p.windowID)
  {
  }

  class Dir {
    var waiting: map<string, Prompt>
    var undelivered: map<string, Prompt>

    /** Every file is named after the id it holds. */
    ghost predicate Valid()
      reads this
    {
      forall id | id in waiting :: waiting[id].id == id
    }

    constructor ()
      ensures Valid() && waiting == map[] && undelivered == map[]
    {
      waiting, undelivered := map[], map[];
    }

    method Append(p: Prompt, works: bool) returns (ok: bool)
      requires Valid()
      modifies this`waiting
      ensures Valid() && ok == (works && p.id != "" && p.windowID != "")
      ensures waiting == if ok then old(waiting)[p.id := p] else old(waiting)
    {
      if p.id == "" || p.windowID == "" { return false; }
      if works { waiting := waiting[p.id := p]; }
      ok := works;
    }

    method Remove(id: string, works: bool) returns (ok: bool)
      requires Valid()
      modifies this`waiting
      ensures Valid() && (ok <==> works || id !in old(waiting))
      ensures waiting == if ok then old(waiting) - {id} else old(waiting)
    {
      if id !in waiting { return true; }
      if works { waiting := waiting - {id}; }
      ok := works;
    }

    /** Peek: exactly the window's waiting prompts, oldest first and by id among equals. */
    method Peek(windowID: string) returns (ps: seq<Prompt>)
      requires Valid()
      ensures QueueIn(waiting, windowID, ps)
    {
      ps := [];
      var ids := waiting.Keys;
      while ids != {}
        invariant ids <= waiting.Keys && Sorted(ps, PromptKey)
        invariant forall p ::
                    p in ps <==> p.id in waiting && p.id !in ids && waiting[p.id] == p && p.windowID == windowID
        decreases |ids|
      {
        var id :| id in ids;
        if waiting[id].windowID == windowID {
          InsertIsSorted(ps, waiting[id], PromptKey);
          ps := Insert(ps, waiting[id], PromptKey);
        }
        ids := ids - {id};
      }
    }

    /** Quarantine: each prompt is written aside before it is removed, so at the first failure none is lost. */
    method Quarantine(windowID: string, written: string -> bool, removed: string -> bool) returns (moved: nat, ok: bool)
      requires Valid()
      modifies this
      ensures Valid()
      ensures MovedAside(old(waiting), waiting, undelivered, windowID)
      ensures ok ==> forall id | id in waiting :: waiting[id].windowID != windowID
      ensures old(undelivered).Keys <= undelivered.Keys
    {
      var ps := Peek(windowID);
      moved := 0;
      for i := 0 to |ps|
        invariant Valid() && MovedAside(old(waiting), waiting, undelivered, windowID)
        invariant old(undelivered).Keys <= undelivered.Keys
        invariant forall k | 0 <= k < i :: ps[k].id !in waiting
      {
        var p := ps[i];
        assert p in ps;
        if !written(p.id) { return moved, false; }
        MovedOneMore(old(waiting), waiting, undelivered, p);
        undelivered := undelivered[p.id := p];
        var gone := Remove(p.id, removed(p.id));
        if !gone { return moved, false; }
        moved := moved + 1;
      }
      assert forall p | p in ps :: p.id !in waiting;
      forall id | id in waiting ensures waiting[id].windowID != windowID {
        var p := waiting[id];
        assert p.windowID == windowID ==> p in ps;
      }
      ok := true;
    }

    /** deliver, under its lock: a prompt goes straight to the window only when nothing waits for it and its session is
        not blocked; otherwise it is appended, and a drainer is started when it is the first to wait. */
    method Deliver(p: Prompt, blocked: bool, works: bool) returns (direct: bool, queued: bool, drain: bool)
      requires Valid()
      modifies this`waiting
      ensures Valid()
      ensures direct <==> !blocked && forall id | id in old(waiting) :: old(waiting)[id].windowID != p.windowID
      ensures queued ==> !direct && waiting == old(waiting)[p.id := p]
      ensures !queued ==> waiting == old(waiting)
      ensures !direct && works && p.id != "" && p.windowID != "" ==> queued
      ensures drain <==> queued && forall id | id in old(waiting) :: old(waiting)[id].windowID != p.windowID
    {
      var ps := Peek(p.windowID);
      assert forall id | id in waiting && waiting[id].windowID == p.windowID :: waiting[id] in ps;
      assert ps != [] ==> ps[0] in ps;
      if |ps| == 0 && !blocked { return true, false, false; }
      queued := Append(p, works);
      direct, drain := false, queued && |ps| == 0;
    }

    /** drain, left alone: the window receives a prefix of the queue in order, and when it stops early the rest is
        still waiting or kept aside. */
    method Drain(windowID: string, sends: string -> bool, removes: string -> bool, written: string -> bool,
                 removed: string -> bool)
      returns (received: seq<Prompt>, ghost queue: seq<Prompt>)
      requires Valid()
      modifies this
      ensures Valid() && QueueIn(old(waiting), windowID, queue) && received <= queue
      ensures forall p | p in queue[|received|..] ::
                (p.id in waiting && waiting[p.id] == p) || (p.id in undelivered && undelivered[p.id] == p)
      ensures (forall id :: sends(id) && removes(id)) ==> received == queue
    {
      received := [];
      var ps := Peek(windowID);
      queue := ps;
      while ps != []
        invariant Valid() && received <= queue && ps == queue[|received|..]
        invariant QueueIn(waiting, windowID, ps)
        decreases |ps|
      {
        var next := ps[0];
        assert next in ps;
        if !sends(next.id) {
          ghost var before := waiting;
          var moved, ok := Quarantine(windowID, written, removed);
          assert forall p | p in ps :: p.id in before && before[p.id] == p;
          return;
        }
        received := received + [next];
        ghost var rest := ps[1..];
        assert queue[|received|..] == rest;
        QueueAfterRemoval(waiting, windowID, ps);
        var gone := Remove(next.id, removes(next.id));
        if !gone {
          assert forall p | p in rest :: p in ps;
          return;
        }
        ps := Peek(windowID);
        SortedIsUnique(ps, rest, PromptKey);
      }
    }
  }

  lemma QueueAfterRemoval(waiting: map<string, Prompt>, window: string, ps: seq<Prompt>)
    requires QueueIn(waiting, window, ps) && ps != []
    ensures QueueIn(waiting - {ps[0].id}, window, ps[1..])
  {
    var rest := ps[1..];
    assert ps[0] in ps;
    assert forall k | 0 <= k < |rest| :: rest[k] == ps[k + 1];
    var less := waiting - {ps[0].id};
    forall p ensures p in rest <==> p.id in less && less[p.id] == p && p.windowID == window {
      TailMembers(ps, PromptKey, p);
    }
  }
}
