/** Carrying out the upgrade of a supervision tree: a prefix is upgraded, and the tree is resumed. */
module UpgradeRuns {
  import opened Types
  import opened Mailboxes
  import opened UpgradePlans

  datatype UpgradeStage = Suspending | ChangingCode | Resuming

  datatype UpgradeError = UpgradeError(stage: UpgradeStage, actor: ActorId, suspended: seq<ActorId>, upgraded: seq<ActorId>)

  datatype UpgradeResult = Upgraded(plan: Plan) | Failed(error: UpgradeError)

  /** The mailboxes of the live actors. */
  type Boxes = map<ActorId, Box>

  function Reversed(s: seq<ActorId>): (r: seq<ActorId>)
    ensures |r| == |s| && forall i :: 0 <= i < |s| ==> r[i] == s[|s| - 1 - i]
  {
    if s == [] then [] else [s[|s| - 1]] + Reversed(s[..|s| - 1])
  }

  // ------------------------------------------------------------------ a round of control messages

  /** The live ones, in order. */
  function Alive(s: seq<ActorId>, live: set<ActorId>): seq<ActorId> {
    if s == [] then []
    else
      var before := Alive(s[..|s| - 1], live);
      if s[|s| - 1] in live then before + [s[|s| - 1]] else before
  }

  lemma {:induction false} AliveIsExact(s: seq<ActorId>, live: set<ActorId>)
    ensures forall x :: x in Alive(s, live) <==> x in s && x in live
    ensures NoDuplicates(s) ==> NoDuplicates(Alive(s, live))
  {
    if s != [] {
      var front, last := s[..|s| - 1], s[|s| - 1];
      AliveIsExact(front, live);
      assert s == front + [last];
      if NoDuplicates(s) {
        assert forall i, j :: 0 <= i < j < |front| ==> front[i] == s[i] && front[j] == s[j];
        assert last !in front;
      }
    }
  }

  lemma {:induction false} AlivePrefix(s: seq<ActorId>, live: set<ActorId>, i: nat)
    requires i <= |s|
    ensures Alive(s[..i], live) <= Alive(s, live)
    ensures i < |s| ==> Alive(s[..i + 1], live) == Alive(s[..i], live) + if s[i] in live then [s[i]] else []
  {
    if i < |s| {
      assert s[..i + 1][..i] == s[..i];
      assert s[..|s| - 1][..i] == s[..i];
      AlivePrefix(s[..|s| - 1], live, i);
    } else {
      assert s[..i] == s;
    }
  }

  /** A live actor has room for one more control message after `n` others. */
  predicate Takes(boxes: Boxes, x: ActorId, n: nat) {
    x in boxes && (boxes[x].capacity == USIZE_MAX || |boxes[x].queue| + n < boxes[x].capacity)
  }

  /** The `i`th message of a round is refused: its receiver is gone, or is full with those sent before. */
  predicate RefusedAt(boxes: Boxes, s: seq<ActorId>, i: nat)
    requires i < |s|
  {
    !Takes(boxes, s[i], multiset(s[..i])[s[i]])
  }

  lemma RefusedInFront(boxes: Boxes, s: seq<ActorId>)
    requires s != []
    ensures var front := s[..|s| - 1]; forall i :: 0 <= i < |front| ==> RefusedAt(boxes, s, i) == RefusedAt(boxes, front, i)
  {
    var front := s[..|s| - 1];
    assert forall i :: 0 <= i < |front| ==> front[i] == s[i] && front[..i] == s[..i];
  }

  /** Where a round meets its first refusal; its length if it meets none. */
  function FirstRefused(boxes: Boxes, s: seq<ActorId>): (n: nat)
    ensures n <= |s| && (n < |s| ==> RefusedAt(boxes, s, n))
    ensures forall i :: 0 <= i < n ==> !RefusedAt(boxes, s, i)
  {
    if s == [] then 0
    else
      var front := s[..|s| - 1];
      var n := FirstRefused(boxes, front);
      RefusedInFront(boxes, s);
      if n < |front| || RefusedAt(boxes, s, n) then n else n + 1
  }

  /** Only the first refusal is the first. */
  lemma FirstRefusedIs(boxes: Boxes, s: seq<ActorId>, n: nat)
    requires n <= |s| && (n < |s| ==> RefusedAt(boxes, s, n)) && forall i :: 0 <= i < n ==> !RefusedAt(boxes, s, i)
    ensures FirstRefused(boxes, s) == n
  {
  }

  /** With nobody addressed twice, a round goes through iff everyone is live and has room. */
  lemma RoundGoesThrough(boxes: Boxes, s: seq<ActorId>)
    requires NoDuplicates(s)
    ensures FirstRefused(boxes, s) < |s| <==> exists x :: x in s && !Takes(boxes, x, 0)
    ensures FirstRefused(boxes, s) == 0 <==> s == [] || !Takes(boxes, s[0], 0)
  {
    forall i | 0 <= i < |s| ensures RefusedAt(boxes, s, i) == !Takes(boxes, s[i], 0) {
      assert s[i] !in s[..i];
    }
    if x :| x in s && !Takes(boxes, x, 0) {
      var i :| 0 <= i < |s| && s[i] == x;
      assert RefusedAt(boxes, s, i);
    }
  }

  /** The mailboxes after one control message to each of `sent`. */
  ghost predicate AfterRound(boxes: Boxes, sent: seq<ActorId>, now: Boxes) {
    && now.Keys == boxes.Keys
    && forall x :: x in boxes ==> now[x].capacity == boxes[x].capacity && |now[x].queue| == |boxes[x].queue| + multiset(sent)[x]
  }

  lemma OneMoreSent(boxes: Boxes, s: seq<ActorId>, i: nat, now: Boxes, e: Envelope)
    requires i < |s| && AfterRound(boxes, s[..i], now) && e.UsesRuntimeReserve()
    ensures RefusedAt(boxes, s, i) <==> s[i] !in now || now[s[i]].IsFullFor(e)
    ensures s[i] in now ==> AfterRound(boxes, s[..i + 1], now[s[i] := now[s[i]].Push(e)])
  {
    assert s[..i + 1] == s[..i] + [s[i]];
  }

  // ------------------------------------------------------------------ what the runtime underneath sees

  /** What the transaction does, as the runtime sees it; only the runtime's own methods write it down. */
  datatype Act =
    | Sent(actor: ActorId, message: SystemMessage, accepted: bool)
    | RanUntilIdle
    | Awaited(actor: ActorId, ran: bool, ok: bool)      // the answer of a code-change hook, which may not have run

  /** The same message to each, and accepted by each. */
  function Messages(s: seq<ActorId>, message: SystemMessage): seq<Act> {
    if s == [] then [] else Messages(s[..|s| - 1], message) + [Sent(s[|s| - 1], message, true)]
  }

  /** The same message to each in order, up to the first that refuses it and to nobody after that one. */
  function Round(boxes: Boxes, s: seq<ActorId>, message: SystemMessage): seq<Act> {
    var n := FirstRefused(boxes, s);
    Messages(s[..n], message) + if n < |s| then [Sent(s[n], message, false)] else []
  }

  /** Everyone is asked for the code change in order, and each hook runs and succeeds. */
  function Changes(s: seq<ActorId>, version: nat): seq<Act> {
    if s == [] then []
    else Changes(s[..|s| - 1], version) + [Sent(s[|s| - 1], CodeChange(version), true), Awaited(s[|s| - 1], true, true)]
  }

  /** The ways in which one code change fails: the actor is gone, refuses the message, or does not answer well. */
  predicate FailedChange(actor: ActorId, version: nat, acts: seq<Act>) {
    || acts == []
    || acts == [Sent(actor, CodeChange(version), false)]
    || acts == [Sent(actor, CodeChange(version), true), Awaited(actor, true, false)]
    || acts == [Sent(actor, CodeChange(version), true), Awaited(actor, false, false)]
  }

  /** The live targets, last suspended first. */
  function ResumeOrder(boxes: Boxes, targets: seq<ActorId>): seq<ActorId> { Alive(Reversed(targets), boxes.Keys) }

  function Resumed(boxes: Boxes, targets: seq<ActorId>): seq<Act> {
    var s := ResumeOrder(boxes, targets);
    Round(boxes, s, Resume) + if FirstRefused(boxes, s) == |s| then [RanUntilIdle] else []
  }

  /** A whole transaction past its first stage: all are suspended, some upgraded, and then the tree is resumed. */
  function Transcript(plan: Plan, version: nat, upgraded: seq<ActorId>, change: seq<Act>, at: Boxes): seq<Act> {
    Messages(plan.resumeTargets, Suspend) + [RanUntilIdle] + Changes(upgraded, version) + change + Resumed(at, plan.resumeTargets)
  }

  /** Whom a message was sent to, accepted or not. */
  function Addressed(acts: seq<Act>, message: SystemMessage): seq<ActorId> {
    if acts == [] then []
    else
      var before := Addressed(acts[..|acts| - 1], message);
      var last := acts[|acts| - 1];
      if last.Sent? && last.message == message then before + [last.actor] else before
  }

  lemma {:induction false} AddressedConcat(s: seq<Act>, t: seq<Act>, m: SystemMessage)
    ensures Addressed(s + t, m) == Addressed(s, m) + Addressed(t, m)
  {
    if t == [] {
      assert s + t == s;
    } else {
      AddressedConcat(s, t[..|t| - 1], m);
      assert (s + t)[..|s + t| - 1] == s + t[..|t| - 1];
    }
  }

  lemma NobodyAddressed(m: SystemMessage)
    ensures Addressed([], m) == []
  {
  }

  lemma AddressedOne(a: Act, m: SystemMessage)
    ensures Addressed([a], m) == if a.Sent? && a.message == m then [a.actor] else []
  {
    assert [a][..0] == [];
  }

  lemma AddressedTwo(a: Act, b: Act, m: SystemMessage)
    ensures Addressed([a, b], m) == Addressed([a], m) + Addressed([b], m)
  {
    AddressedConcat([a], [b], m);
    assert [a] + [b] == [a, b];
  }

  lemma {:induction false} AddressedMessages(s: seq<ActorId>, message: SystemMessage, m: SystemMessage)
    ensures Addressed(Messages(s, message), m) == if m == message then s else []
  {
    if s != [] {
      hide Addressed;
      var front, last := Messages(s[..|s| - 1], message), Sent(s[|s| - 1], message, true);
      AddressedMessages(s[..|s| - 1], message, m);
      AddressedConcat(front, [last], m);
      AddressedOne(last, m);
      assert s == s[..|s| - 1] + [s[|s| - 1]];
    }
  }

  lemma {:induction false} AddressedChanges(s: seq<ActorId>, version: nat)
    ensures Addressed(Changes(s, version), Resume) == []
  {
    if s != [] {
      hide Addressed;
      var front, last := Changes(s[..|s| - 1], version), [Sent(s[|s| - 1], CodeChange(version), true), Awaited(s[|s| - 1], true, true)];
      AddressedChanges(s[..|s| - 1], version);
      AddressedConcat(front, last, Resume);
      AddressedTwo(last[0], last[1], Resume);
      AddressedOne(last[0], Resume);
      AddressedOne(last[1], Resume);
    }
  }

  lemma AddressedFailedChange(actor: ActorId, version: nat, acts: seq<Act>)
    requires FailedChange(actor, version, acts)
    ensures Addressed(acts, Resume) == []
  {
    if acts != [] {
      hide Addressed;
      AddressedOne(acts[0], Resume);
      if |acts| == 2 {
        AddressedOne(acts[1], Resume);
        AddressedTwo(acts[0], acts[1], Resume);
      }
    }
  }

  /** Who has been sent a message of a round, the refused one included. */
  function Tried(s: seq<ActorId>, n: nat): seq<ActorId> { if n < |s| then s[..n + 1] else s }

  lemma AddressedRound(boxes: Boxes, s: seq<ActorId>, message: SystemMessage, m: SystemMessage)
    ensures Addressed(Round(boxes, s, message), m) == if m == message then Tried(s, FirstRefused(boxes, s)) else []
  {
    hide Addressed, Messages, FirstRefused;
    var n := FirstRefused(boxes, s);
    AddressedMessages(s[..n], message, m);
    if n < |s| {
      var last := Sent(s[n], message, false);
      AddressedConcat(Messages(s[..n], message), [last], m);
      AddressedOne(last, m);
      assert s[..n] + [s[n]] == s[..n + 1];
    } else {
      assert Messages(s[..n], message) + [] == Messages(s[..n], message) && s[..n] == s;
    }
  }

  /** In a transaction past its first stage exactly the tried of the last round were sent a resume. */
  lemma AddressedTranscript(plan: Plan, version: nat, upgraded: seq<ActorId>, change: seq<Act>, at: Boxes)
    requires Addressed(change, Resume) == []
    ensures var s := ResumeOrder(at, plan.resumeTargets);
      Addressed(Transcript(plan, version, upgraded, change, at), Resume) == Tried(s, FirstRefused(at, s))
  {
    hide Addressed, Messages, Changes, Round, FirstRefused, ResumeOrder;
    NobodyAddressed(Resume);
    var s := ResumeOrder(at, plan.resumeTargets);
    var first := Messages(plan.resumeTargets, Suspend);
    AddressedMessages(plan.resumeTargets, Suspend, Resume);
    AddressedOne(RanUntilIdle, Resume);
    AddressedConcat(first, [RanUntilIdle], Resume);
    AddressedChanges(upgraded, version);
    AddressedConcat(first + [RanUntilIdle], Changes(upgraded, version), Resume);
    AddressedConcat(first + [RanUntilIdle] + Changes(upgraded, version), change, Resume);
    AddressedRound(at, s, Resume, Resume);
    AddressedConcat(Round(at, s, Resume), if FirstRefused(at, s) == |s| then [RanUntilIdle] else [], Resume);
    AddressedConcat(first + [RanUntilIdle] + Changes(upgraded, version) + change, Resumed(at, plan.resumeTargets), Resume);
  }

  lemma OneMoreMessage(s: seq<ActorId>, i: nat, message: SystemMessage)
    requires i < |s|
    ensures Messages(s[..i + 1], message) == Messages(s[..i], message) + [Sent(s[i], message, true)]
  {
    assert s[..i + 1][..i] == s[..i];
  }

  lemma OneMoreChange(s: seq<ActorId>, i: nat, version: nat)
    requires i < |s|
    ensures Changes(s[..i + 1], version)
         == Changes(s[..i], version) + [Sent(s[i], CodeChange(version), true), Awaited(s[i], true, true)]
  {
    assert s[..i + 1][..i] == s[..i];
  }

  // ------------------------------------------------------------------ what is promised

  /** What is documented for every failure: whoever was suspended, and is still there, is sent a resume message. */
  ghost predicate ResumeAttempted(e: UpgradeError, live: set<ActorId>, acts: seq<Act>) {
    forall x :: x in e.suspended && x in live ==> x in Addressed(acts, Resume)
  }

  /**
   * When that is so. A failure to suspend must be of the first target; later, everyone live who comes
   * after a refused resume must have been tried before, as nobody is tried after it.
   */
  ghost predicate KeepsPromise(stage: UpgradeStage, targets: seq<ActorId>, before: Boxes, at: Boxes) {
    if stage == Suspending then FirstRefused(before, targets) == 0
    else
      var s := ResumeOrder(at, targets);
      var n := FirstRefused(at, s);
      forall i :: n < i < |s| ==> s[i] in s[..n + 1]
  }

  lemma StoppedEarly(plan: Plan, e: UpgradeError, before: Boxes, at: Boxes, n: nat)
    requires n == FirstRefused(before, plan.resumeTargets) < |plan.resumeTargets|
    requires at.Keys == before.Keys && e.stage == Suspending && e.suspended == plan.resumeTargets[..n]
    ensures ResumeAttempted(e, at.Keys, Round(before, plan.resumeTargets, Suspend))
      <==> KeepsPromise(Suspending, plan.resumeTargets, before, at)
  {
    AddressedRound(before, plan.resumeTargets, Suspend, Resume);
    if n > 0 {
      assert !RefusedAt(before, plan.resumeTargets, 0);
      assert plan.resumeTargets[0] in e.suspended;
    }
  }

  lemma StoppedLater(plan: Plan, version: nat, e: UpgradeError, before: Boxes, at: Boxes, change: seq<Act>)
    requires e.stage != Suspending && e.suspended == plan.resumeTargets && Addressed(change, Resume) == []
    ensures ResumeAttempted(e, at.Keys, Transcript(plan, version, e.upgraded, change, at))
      <==> KeepsPromise(e.stage, plan.resumeTargets, before, at)
  {
    hide Transcript, Addressed, Alive, FirstRefused, FailedChange;
    AddressedTranscript(plan, version, e.upgraded, change, at);
    var targets := plan.resumeTargets;
    var order := Reversed(targets);
    var s := ResumeOrder(at, targets);
    var n := FirstRefused(at, s);
    var tried := Tried(s, n);
    AliveIsExact(order, at.Keys);
    assert forall x :: x in targets <==> x in order by {
      forall x | x in targets ensures x in order {
        var i :| 0 <= i < |targets| && targets[i] == x;
        assert order[|targets| - 1 - i] == x;
      }
    }
    assert forall x :: x in s <==> x in targets && x in at;
    if KeepsPromise(e.stage, targets, before, at) {
      forall x | x in targets && x in at ensures x in tried {
        var i :| 0 <= i < |s| && s[i] == x;
        if n < |s| && i <= n { assert s[..n + 1][i] == x; }
      }
    }
    if forall x :: x in targets && x in at ==> x in tried {
      forall i | n < i < |s| ensures s[i] in s[..n + 1] {
        assert s[i] in s;
      }
    }
  }

  /** Two targets, and the second is full: the first stays suspended. */
  lemma SecondTargetFull(a: ActorId, b: ActorId)
    requires a != b
    ensures var boxes := map[a := Box(0, [], 1, 0), b := Box(1, [Queued(0, Task(0))], 1, 0)];
      FirstRefused(boxes, [a, b]) == 1 && !KeepsPromise(Suspending, [a, b], boxes, boxes)
  {
    var boxes := map[a := Box(0, [], 1, 0), b := Box(1, [Queued(0, Task(0))], 1, 0)];
    assert [a, b][..0] == [] && [a, b][..1] == [a];
    FirstRefusedIs(boxes, [a, b], 1);
  }

  /** The same two when they are resumed: the second is tried first and refuses, and the first is not tried. */
  lemma SecondTargetFullLater(a: ActorId, b: ActorId)
    requires a != b
    ensures var boxes := map[a := Box(0, [], 1, 0), b := Box(1, [Queued(0, Task(0))], 1, 0)];
      !KeepsPromise(ChangingCode, [a, b], boxes, boxes)
  {
    var boxes := map[a := Box(0, [], 1, 0), b := Box(1, [Queued(0, Task(0))], 1, 0)];
    assert Reversed([a, b]) == [b, a];
    assert Alive([b, a], boxes.Keys) == [b, a] by {
      assert [b, a][..1] == [b] && [b][..0] == [];
      assert Alive([b], boxes.Keys) == [b];
    }
    assert [b, a][..0] == [];
    FirstRefusedIs(boxes, [b, a], 0);
    assert [b, a][1] !in [b, a][..1];
  }

  class UpgradeRun {
    var boxes: Boxes           // of the actors still there; one that has ended never comes back
    ghost var log: seq<Act>    // written only by the runtime underneath

    constructor (boxes: Boxes)
      ensures this.boxes == boxes && log == []
    {
      this.boxes := boxes;
      log := [];
    }

    // ---------------------------------------------------------------- the runtime underneath

    /** Anything may run, end, send and receive, but nothing that has ended returns. */
    method RunUntilIdle()
      modifies `boxes, `log
      ensures boxes.Keys <= old(boxes.Keys)
      ensures log == old(log) + [RanUntilIdle]
    {
      var later: Boxes := *;
      boxes := map x | x in boxes && x in later :: later[x];
      log := log + [RanUntilIdle];
    }

    /** A control message is refused exactly if the actor is gone or its mailbox is full; nothing runs meanwhile. */
    method SendSystem(actor: ActorId, message: SystemMessage) returns (accepted: bool)
      modifies `boxes, `log
      ensures accepted <==> actor in old(boxes) && !old(boxes)[actor].IsFullFor(System(message))
      ensures boxes == if accepted then old(boxes)[actor := old(boxes)[actor].Push(System(message))] else old(boxes)
      ensures log == old(log) + [Sent(actor, message, accepted)]
    {
      accepted := actor in boxes && !boxes[actor].IsFullFor(System(message));
      log := log + [Sent(actor, message, accepted)];
      if accepted {
        boxes := boxes[actor := boxes[actor].Push(System(message))];
      }
    }

    /** Runs whatever there is to run until the hook has answered, or nothing more can happen. */
    method WaitForControlReply(actor: ActorId) returns (ok: bool)
      modifies `boxes, `log
      ensures boxes.Keys <= old(boxes.Keys)
      ensures exists ran :: (ok ==> ran) && log == old(log) + [Awaited(actor, ran, ok)]
    {
      var later: Boxes := *;
      boxes := map x | x in boxes && x in later :: later[x];
      var ran: bool := *;
      ok := *;
      ok := ok && ran;
      log := log + [Awaited(actor, ran, ok)];
    }

    /** Asks for a code change and waits for the answer; the hook may run, and may fail or be cut short. */
    method CodeChangeActor(actor: ActorId, version: nat) returns (ok: bool, ghost acts: seq<Act>)
      modifies `boxes, `log
      ensures boxes.Keys <= old(boxes.Keys) && log == old(log) + acts
      ensures ok ==> acts == [Sent(actor, CodeChange(version), true), Awaited(actor, true, true)]
      ensures !ok ==> acts != [] && FailedChange(actor, version, acts)
      ensures acts == [Sent(actor, CodeChange(version), false)]
        <==> !(actor in old(boxes) && !old(boxes)[actor].IsFullFor(System(CodeChange(version))))
    {
      ghost var before := log;
      ok := SendSystem(actor, CodeChange(version));
      if ok {
        ok := WaitForControlReply(actor);
      }
      acts := log[|before|..];
    }

    // ---------------------------------------------------------------- the transaction

    /** Resumes, last suspended first, whoever is still live; stops at the first refusal, else lets everyone run. */
    method ResumeTargets(targets: seq<ActorId>) returns (refused: Option<ActorId>)
      modifies `boxes, `log
      ensures boxes.Keys <= old(boxes.Keys)
      ensures log == old(log) + Resumed(old(boxes), targets)
      ensures var s := ResumeOrder(old(boxes), targets);
        var n := FirstRefused(old(boxes), s);
        refused == if n < |s| then Some(s[n]) else None
    {
      hide Alive, FirstRefused, AfterRound, RefusedAt, Messages;
      var order := Reversed(targets);
      ghost var s := Alive(order, boxes.Keys);
      ghost var sent: seq<ActorId> := [];
      assert order[..|order|] == order;
      RoundBegins(boxes, order);
      for i := 0 to |order|
        invariant sent == Alive(order[..i], old(boxes.Keys)) <= s && log == old(log) + Messages(sent, Resume)
        invariant AfterRound(old(boxes), sent, boxes) && boxes.Keys == old(boxes.Keys)
        invariant forall j :: 0 <= j < |sent| ==> !RefusedAt(old(boxes), s, j)
      {
        AlivePrefix(order, old(boxes.Keys), i);
        AlivePrefix(order, old(boxes.Keys), i + 1);
        if order[i] in boxes {
          ghost var n := |sent|;
          assert s[..n] == sent && s[n] == order[i] && s[..n + 1] == sent + [order[i]];
          OneMoreSent(old(boxes), s, n, boxes, System(Resume));
          OneMoreMessage(s, n, Resume);
          var accepted := SendSystem(order[i], Resume);
          if !accepted {
            FirstRefusedIs(old(boxes), s, n);
            return Some(order[i]);
          }
          sent := sent + [order[i]];
        }
      }
      FirstRefusedIs(old(boxes), s, |s|);
      assert s[..|s|] == s;
      RunUntilIdle();
      return None;
    }

    /** Suspends one target after the other, up to the first refusal. */
    method SuspendTargets(targets: seq<ActorId>) returns (suspended: seq<ActorId>, refused: Option<ActorId>)
      modifies `boxes, `log
      ensures boxes.Keys == old(boxes.Keys)
      ensures log == old(log) + Round(old(boxes), targets, Suspend)
      ensures var n := FirstRefused(old(boxes), targets);
        suspended == targets[..n] && refused == if n < |targets| then Some(targets[n]) else None
    {
      hide FirstRefused, AfterRound, RefusedAt, Messages;
      suspended := [];
      RoundBegins(boxes, targets);
      for i := 0 to |targets|
        invariant suspended == targets[..i] && log == old(log) + Messages(suspended, Suspend)
        invariant AfterRound(old(boxes), suspended, boxes) && boxes.Keys == old(boxes.Keys)
        invariant forall j :: 0 <= j < i ==> !RefusedAt(old(boxes), targets, j)
      {
        OneMoreSent(old(boxes), targets, i, boxes, System(Suspend));
        OneMoreMessage(targets, i, Suspend);
        var accepted := SendSystem(targets[i], Suspend);
        if !accepted {
          FirstRefusedIs(old(boxes), targets, i);
          return suspended, Some(targets[i]);
        }
        suspended := suspended + [targets[i]];
      }
      FirstRefusedIs(old(boxes), targets, |targets|);
      refused := None;
    }

    /**
     * The whole transaction over a plan. `at` is where the mailboxes stand when the tree is to be
     * resumed; `change` is what was done about the code change that failed. What was upgraded is always
     * a prefix of the upgrade order, and nobody after the actor that failed was asked.
     */
    method UpgradeSupervisorTree(plan: Plan, version: nat) returns (result: UpgradeResult, ghost at: Boxes, ghost change: seq<Act>)
      modifies `boxes, `log
      ensures at.Keys <= old(boxes.Keys) && boxes.Keys <= at.Keys
      ensures result.Failed? && result.error.stage == Suspending <==> FirstRefused(old(boxes), plan.resumeTargets) < |plan.resumeTargets|
      ensures result.Failed? && result.error.stage == Suspending ==>
        var n := FirstRefused(old(boxes), plan.resumeTargets);
        && result.error == UpgradeError(Suspending, plan.resumeTargets[n], plan.resumeTargets[..n], [])
        && log == old(log) + Round(old(boxes), plan.resumeTargets, Suspend) && boxes == at && at.Keys == old(boxes.Keys)
      ensures !(result.Failed? && result.error.stage == Suspending) ==>
        var upgraded := if result.Failed? then result.error.upgraded else plan.upgradeOrder;
        var s := ResumeOrder(at, plan.resumeTargets);
        && log == old(log) + Transcript(plan, version, upgraded, change, at)
        && (result.Failed? ==> result.error.suspended == plan.resumeTargets)
        && (result.Upgraded? ==> result.plan == plan && change == [] && FirstRefused(at, s) == |s|)
      ensures result.Failed? && result.error.stage == ChangingCode ==>
        var e := result.error;
        && |e.upgraded| < |plan.upgradeOrder| && e.upgraded == plan.upgradeOrder[..|e.upgraded|]
        && e.actor == plan.upgradeOrder[|e.upgraded|]
        && FailedChange(e.actor, version, change) && (change == [] ==> e.actor !in at)
      ensures result.Failed? && result.error.stage == Resuming ==>
        var s := ResumeOrder(at, plan.resumeTargets);
        && change == [] && result.error.upgraded == plan.upgradeOrder
        && FirstRefused(at, s) < |s| && result.error.actor == s[FirstRefused(at, s)]
      ensures result.Failed? ==>
        (ResumeAttempted(result.error, at.Keys, log[|old(log)|..]) <==> KeepsPromise(result.error.stage, plan.resumeTargets, old(boxes), at))
    {
      hide Reversed, Alive, FirstRefused, AfterRound, Round, Resumed, ResumeOrder, ResumeAttempted, KeepsPromise, Messages, Changes,
        FailedChange, Addressed;
      change := [];
      RoundBegins(boxes, plan.resumeTargets);
      var suspended, unsuspended := SuspendTargets(plan.resumeTargets);
      if unsuspended.Some? {
        at := boxes;
        result := Failed(UpgradeError(Suspending, unsuspended.value, suspended, []));
        StoppedEarly(plan, result.error, old(boxes), at, |suspended|);
        assert log[|old(log)|..] == Round(old(boxes), plan.resumeTargets, Suspend);
        return;
      }
      RoundDone(old(boxes), plan.resumeTargets, Suspend);
      RunUntilIdle();
      ghost var sofar := old(log) + (Messages(plan.resumeTargets, Suspend) + [RanUntilIdle]);
      var upgraded: seq<ActorId> := [];
      for i := 0 to |plan.upgradeOrder|
        invariant upgraded == plan.upgradeOrder[..i] && suspended == plan.resumeTargets && change == []
        invariant log == sofar + Changes(upgraded, version) && boxes.Keys <= old(boxes.Keys)
      {
        var actor := plan.upgradeOrder[i];
        OneMoreChange(plan.upgradeOrder, i, version);
        var ok := actor in boxes;
        ghost var acts: seq<Act> := [];
        if ok {
          ok, acts := CodeChangeActor(actor, version);
        }
        if !ok {
          at, change := boxes, acts;
          result := Failed(UpgradeError(ChangingCode, actor, suspended, upgraded));
          NotAsked(actor, version, acts);
          var _ := ResumeTargets(plan.resumeTargets);
          AddressedFailedChange(actor, version, acts);
          StoppedLater(plan, version, result.error, old(boxes), at, change);
          assert log == old(log) + Transcript(plan, version, upgraded, change, at);
          return;
        }
        upgraded := upgraded + [actor];
      }
      at := boxes;
      var refused := ResumeTargets(plan.resumeTargets);
      assert plan.upgradeOrder[..|plan.upgradeOrder|] == plan.upgradeOrder;
      assert log == old(log) + Transcript(plan, version, plan.upgradeOrder, change, at);
      if refused.Some? {
        result := Failed(UpgradeError(Resuming, refused.value, suspended, upgraded));
        NotAsked(refused.value, version, []);
        AddressedFailedChange(refused.value, version, []);
        StoppedLater(plan, version, result.error, old(boxes), at, change);
        return;
      }
      result := Upgraded(plan);
    }
  }

  lemma RoundDone(boxes: Boxes, s: seq<ActorId>, message: SystemMessage)
    requires FirstRefused(boxes, s) == |s|
    ensures Round(boxes, s, message) == Messages(s, message)
  {
    assert s[..|s|] == s;
  }

  lemma NotAsked(actor: ActorId, version: nat, acts: seq<Act>)
    ensures acts == [] ==> FailedChange(actor, version, acts)
  {
  }

  lemma RoundBegins(boxes: Boxes, s: seq<ActorId>)
    ensures AfterRound(boxes, [], boxes) && Alive(s[..0], boxes.Keys) == []
    ensures forall m :: Messages([], m) == []
    ensures forall v :: Changes([], v) == []
  {
  }

  /**
   * For a plan of a tree: an actor is upgraded only after all children it has in the plan, so what a
   * failed code change leaves upgraded is closed under children.
   */
  lemma UpgradedIsClosedDownwards(f: Forest, root: ActorId, plan: Plan, n: nat, p: ActorId, k: nat, x: ActorId)
    requires PlanFits(f, root, plan) && n <= |plan.upgradeOrder|
    requires p in plan.upgradeOrder[..n] && Owns(f, p, k, x)
    ensures x in plan.upgradeOrder[..n]
  {
    assert p in plan.upgradeOrder && p in plan.suspendOrder;
    assert Preceded(plan.upgradeOrder, p, x);
    var m :| 0 <= m < n && plan.upgradeOrder[..n][m] == p;
    assert x in plan.upgradeOrder[..m] && plan.upgradeOrder[..m] == plan.upgradeOrder[..n][..m];
  }
}
