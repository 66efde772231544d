/** The build screen: a four-step progress list driven by the streamed code and
    the completion flag, a timed "thinking" narration, the collapse of that
    narration once the build is done, and a chat box with a canned reply. */
module BuilderView {
  import opened Text
  import opened Optional

  // ---------------------------------------------------------------- steps

  datatype StepStatus = Pending | Running | Completed

  /** The order in which a step advances: pending < running < completed. */
  function Rank(s: StepStatus): nat {
    match s
    case Pending => 0
    case Running => 1
    case Completed => 2
  }

  datatype Step = Step(id: string, caption: string, status: StepStatus)

  const InitialSteps: seq<Step> := [
    Step("1", "Analyzing Requirements", Completed),
    Step("2", "Drafting Architecture", Running),
    Step("3", "Generating Frontend", Pending),
    Step("4", "Finalizing Build", Pending)
  ]

  /** Streamed code longer than this many characters completes step 2. */
  const CodeThreshold: nat := 50

  /** The threshold update of one step: step 2 completes, step 3 starts. */
  function AdvanceStep(s: Step): Step {
    if s.id == "2" then s.(status := Completed)
    else if s.id == "3" then s.(status := Running)
    else s
  }

  /** The threshold update: ids and captions kept, the step with id "2"
      completed, the one with id "3" running, every other status unchanged. */
  function AdvanceSteps(prev: seq<Step>): (r: seq<Step>)
    ensures |r| == |prev|
    ensures forall i :: 0 <= i < |prev| ==> r[i].id == prev[i].id && r[i].caption == prev[i].caption
    ensures forall i :: 0 <= i < |prev| ==>
      r[i].status == (if prev[i].id == "2" then Completed else if prev[i].id == "3" then Running else prev[i].status)
  {
    seq(|prev|, i requires 0 <= i < |prev| => AdvanceStep(prev[i]))
  }

  /** The completion update: every step completed, ids and captions kept. */
  function CompleteSteps(prev: seq<Step>): (r: seq<Step>)
    ensures |r| == |prev|
    ensures forall i :: 0 <= i < |prev| ==>
      r[i].id == prev[i].id && r[i].caption == prev[i].caption && r[i].status == Completed
  {
    seq(|prev|, i requires 0 <= i < |prev| => prev[i].(status := Completed))
  }

  /** The step-progression effect, run with the current code length and
      completion flag: first the threshold update, guarded by the code being
      longer than the threshold and step 2 still running, then, when the build
      is complete, the completion update. */
  function StepEffect(steps: seq<Step>, codeLength: nat, isComplete: bool): seq<Step>
    requires |steps| >= 2
  {
    var afterThreshold :=
      if codeLength > CodeThreshold && steps[1].status == Running then AdvanceSteps(steps) else steps;
    if isComplete then CompleteSteps(afterThreshold) else afterThreshold
  }

  /** The status of step `i` when the first `done` steps are completed. */
  function StageStatus(done: nat, i: nat): StepStatus {
    if i < done then Completed else if i == done then Running else Pending
  }

  /** The steps as they stand after `done` completions: fixed ids and
      captions, a completed prefix of length `done`, the next one running. */
  predicate AtStage(steps: seq<Step>, done: nat) {
    |steps| == 4 &&
    forall i :: 0 <= i < 4 ==> steps[i] == InitialSteps[i].(status := StageStatus(done, i))
  }

  /** The three step lists the screen can show: [C,R,P,P], [C,C,R,P], [C,C,C,C]. */
  predicate Reachable(steps: seq<Step>) {
    AtStage(steps, 1) || AtStage(steps, 2) || AtStage(steps, 4)
  }

  /** Each step has advanced at least as far in `b` as in `a`. */
  predicate NoRegression(a: seq<Step>, b: seq<Step>) {
    |a| == |b| && forall i :: 0 <= i < |a| ==> Rank(a[i].status) <= Rank(b[i].status)
  }

  lemma InitialReachable()
    ensures Reachable(InitialSteps)
  {
    assert AtStage(InitialSteps, 1);
  }

  /** What a reachable list looks like: step 1 is completed, the completed steps
      form a prefix, at most one step runs and it is never step 4, and the ids
      and captions never change. */
  lemma ReachableShape(steps: seq<Step>)
    requires Reachable(steps)
    ensures |steps| == 4 && steps[0].status == Completed && steps[3].status != Running
    ensures forall i, j :: 0 <= i < j < 4 ==> Rank(steps[i].status) >= Rank(steps[j].status)
    ensures forall i, j :: 0 <= i < 4 && 0 <= j < 4 && steps[i].status == Running && steps[j].status == Running ==> i == j
    ensures forall i :: 0 <= i < 4 ==> steps[i].id == InitialSteps[i].id && steps[i].caption == InitialSteps[i].caption
  {
  }

  /** The effect keeps the list reachable and never moves a step backwards;
      past the threshold step 2 is completed, and on completion every step is. */
  lemma StepEffectPreservesReachable(steps: seq<Step>, codeLength: nat, isComplete: bool)
    requires Reachable(steps)
    ensures Reachable(StepEffect(steps, codeLength, isComplete))
    ensures NoRegression(steps, StepEffect(steps, codeLength, isComplete))
    ensures codeLength > CodeThreshold ==> StepEffect(steps, codeLength, isComplete)[1].status == Completed
    ensures isComplete ==> AtStage(StepEffect(steps, codeLength, isComplete), 4)
  {
    var r := StepEffect(steps, codeLength, isComplete);
    if isComplete {
      assert AtStage(r, 4);
    } else if codeLength > CodeThreshold && steps[1].status == Running {
      assert AtStage(steps, 1);
      assert AtStage(r, 2);
    }
  }

  /** The threshold update fires only for code strictly longer than the
      threshold while step 2 runs, and then changes only steps 2 and 3. */
  lemma ThresholdUpdate(steps: seq<Step>, codeLength: nat)
    requires Reachable(steps)
    ensures StepEffect(steps, codeLength, false) != steps <==>
      codeLength > CodeThreshold && steps[1].status == Running
    ensures codeLength > CodeThreshold && steps[1].status == Running ==>
      StepEffect(steps, codeLength, false) ==
        steps[1 := steps[1].(status := Completed)][2 := steps[2].(status := Running)]
  {
    var r := StepEffect(steps, codeLength, false);
    if codeLength > CodeThreshold && steps[1].status == Running {
      assert r[1] != steps[1];
    }
  }

  /** Once step 2 is completed, more code changes nothing. */
  lemma ThresholdIdempotent(steps: seq<Step>, codeLength: nat, codeLength': nat)
    requires Reachable(steps)
    ensures codeLength > CodeThreshold ==>
      StepEffect(StepEffect(steps, codeLength, false), codeLength', false) == StepEffect(steps, codeLength, false)
  {
  }

  /** Completion completes every step, whatever the code length. */
  lemma CompletionCompletesAll(steps: seq<Step>, codeLength: nat)
    requires Reachable(steps)
    ensures AtStage(StepEffect(steps, codeLength, true), 4)
    ensures forall i :: 0 <= i < 4 ==> StepEffect(steps, codeLength, true)[i].status == Completed
  {
  }

  /** The steps agree with the props they were last updated for: reachable,
      all completed once the build is, step 2 completed past the threshold. */
  predicate StepsFollow(steps: seq<Step>, codeLength: nat, isComplete: bool) {
    && Reachable(steps)
    && (isComplete ==> AtStage(steps, 4))
    && (codeLength > CodeThreshold ==> steps[1].status == Completed)
  }

  /** A re-render keeps the steps in line with the new props: the effect runs
      when a prop changed, and otherwise the props, and so the steps, are as before. */
  lemma RerenderFollows(steps: seq<Step>, oldLength: nat, oldComplete: bool,
                        codeLength: nat, isComplete: bool, run: bool)
    requires StepsFollow(steps, oldLength, oldComplete)
    requires !run ==> codeLength == oldLength && isComplete == oldComplete
    ensures StepsFollow(if run then StepEffect(steps, codeLength, isComplete) else steps, codeLength, isComplete)
    ensures NoRegression(steps, if run then StepEffect(steps, codeLength, isComplete) else steps)
  {
    StepEffectPreservesReachable(steps, codeLength, isComplete);
  }

  /** One render's inputs: the streamed code's length and the completion flag. */
  datatype Render = Render(codeLength: nat, isComplete: bool)

  /** The steps after the effect has run for each render in turn. */
  function Replay(steps: seq<Step>, renders: seq<Render>): seq<Step>
    requires Reachable(steps)
    decreases |renders|
  {
    if renders == [] then steps
    else
      StepEffectPreservesReachable(steps, renders[0].codeLength, renders[0].isComplete);
      Replay(StepEffect(steps, renders[0].codeLength, renders[0].isComplete), renders[1..])
  }

  /** Over any sequence of renders the list stays reachable, and no step's
      status at a later snapshot is below its status at an earlier one. */
  lemma {:induction false} ReplayNeverRegresses(steps: seq<Step>, renders: seq<Render>)
    requires Reachable(steps)
    ensures Reachable(Replay(steps, renders))
    ensures NoRegression(steps, Replay(steps, renders))
    decreases |renders|
  {
    if renders != [] {
      var next := StepEffect(steps, renders[0].codeLength, renders[0].isComplete);
      StepEffectPreservesReachable(steps, renders[0].codeLength, renders[0].isComplete);
      ReplayNeverRegresses(next, renders[1..]);
    }
  }

  // ------------------------------------------------------------ narration

  datatype ThinkingStatus = Typing | Done

  datatype ThinkingMessage = ThinkingMessage(id: string, text: string, status: ThinkingStatus)

  /** One entry of the narration schedule: its delay after mounting, in ms. */
  datatype Scheduled = Scheduled(delay: nat, text: string)

  function ThinkingSequence(prompt: string): (r: seq<Scheduled>)
    ensures |r| == 7 && r[0].delay == 300 && r[6].delay == 13000
    ensures forall i, j :: 0 <= i < j < |r| ==> r[i].delay < r[j].delay
    ensures r[1].text == "Understanding requirements for \"" + prompt + "\""
  {
    [ Scheduled(300, "Analyzing your prompt..."),
      Scheduled(1800, "Understanding requirements for \"" + prompt + "\""),
      Scheduled(3200, "Deciding on component structure..."),
      Scheduled(5000, "Scaffolding main layout..."),
      Scheduled(7500, "Generating frontend code..."),
      Scheduled(10000, "Adding styles and interactions..."),
      Scheduled(13000, "Optimizing and polishing...") ]
  }

  /** The id `think-<idx>` of the `idx`-th narration message. */
  function ThinkId(idx: nat): string {
    "think-" + NatToString(idx)
  }

  /** Every message marked done; ids and texts kept in order. */
  function MarkAllDone(msgs: seq<ThinkingMessage>): (r: seq<ThinkingMessage>)
    ensures |r| == |msgs|
    ensures forall i :: 0 <= i < |msgs| ==>
      r[i].id == msgs[i].id && r[i].text == msgs[i].text && r[i].status == Done
  {
    seq(|msgs|, i requires 0 <= i < |msgs| => msgs[i].(status := Done))
  }

  /** The narration timer for message `idx` firing: earlier messages are
      marked done and the new one is appended, typing. */
  function AppendThinking(prev: seq<ThinkingMessage>, idx: nat, text: string): seq<ThinkingMessage> {
    MarkAllDone(prev) + [ThinkingMessage(ThinkId(idx), text, Typing)]
  }

  /** Appending grows the list by one, keeps every earlier id and text in
      place, and leaves exactly one message typing: the new last one. */
  lemma AppendThinkingShape(prev: seq<ThinkingMessage>, idx: nat, text: string)
    ensures |AppendThinking(prev, idx, text)| == |prev| + 1
    ensures forall i :: 0 <= i < |prev| ==>
      AppendThinking(prev, idx, text)[i].id == prev[i].id && AppendThinking(prev, idx, text)[i].text == prev[i].text
    ensures AppendThinking(prev, idx, text)[|prev|] == ThinkingMessage(ThinkId(idx), text, Typing)
    ensures forall i :: 0 <= i < |prev| + 1 ==>
      (AppendThinking(prev, idx, text)[i].status == Typing <==> i == |prev|)
  {
  }

  /** Marking done twice is marking done once, and no message is left typing. */
  lemma MarkAllDoneIdempotent(msgs: seq<ThinkingMessage>)
    ensures MarkAllDone(MarkAllDone(msgs)) == MarkAllDone(msgs)
    ensures forall i :: 0 <= i < |msgs| ==> MarkAllDone(msgs)[i].status != Typing
  {
  }

  /** The narration shown so far follows the schedule: a prefix of it, in
      order, with every message but the last one done. */
  predicate NarrationFollows(schedule: seq<Scheduled>, thinking: seq<ThinkingMessage>) {
    && |thinking| <= |schedule|
    && (forall i :: 0 <= i < |thinking| ==>
          thinking[i].id == ThinkId(i) && thinking[i].text == schedule[i].text)
    && (forall i :: 0 <= i < |thinking| - 1 ==> thinking[i].status == Done)
  }

  /** Marking every message done keeps the narration on schedule. */
  lemma MarkAllDoneFollows(schedule: seq<Scheduled>, thinking: seq<ThinkingMessage>)
    requires NarrationFollows(schedule, thinking)
    ensures NarrationFollows(schedule, MarkAllDone(thinking))
  {
  }

  // ----------------------------------------------------------------- chat

  datatype Role = User | Ai

  /** A chat bubble; its `Date.now()`-based id is not modelled. */
  datatype ChatMessage = ChatMessage(role: Role, text: string)

  const ReplyOpening: string := "Got it! I'll "
  const ReplyClosing: string := ". Applying changes..."

  /** Whether the message, lowered, starts with "add", "make" or "change". */
  predicate IsEditRequest(trimmed: string) {
    var lower := ToLower(trimmed);
    StartsWith(lower, "add") || StartsWith(lower, "make") || StartsWith(lower, "change")
  }

  /** The canned acknowledgement. Between its fixed opening and closing it
      echoes an edit request lowered, and anything else quoted as it was typed. */
  function ReplyText(trimmed: string): (r: string)
    ensures |r| >= |ReplyOpening| + |ReplyClosing|
    ensures r[..|ReplyOpening|] == ReplyOpening && r[|r| - |ReplyClosing|..] == ReplyClosing
    ensures IsEditRequest(trimmed) ==>
      r[|ReplyOpening|..|r| - |ReplyClosing|] == ToLower(trimmed)
    ensures !IsEditRequest(trimmed) ==>
      r[|ReplyOpening|..|r| - |ReplyClosing|] == "work on: \"" + trimmed + "\""
  {
    var action := if IsEditRequest(trimmed) then ToLower(trimmed) else "work on: \"" + trimmed + "\"";
    var r := ReplyOpening + action + ReplyClosing;
    assert r[..|ReplyOpening|] == ReplyOpening;
    assert r[|ReplyOpening|..|r| - |ReplyClosing|] == action;
    assert r[|r| - |ReplyClosing|..] == ReplyClosing;
    r
  }

  /** The edit-request test ignores ASCII case: a message and its lowered
      form are classified alike. */
  lemma {:induction false} EditRequestIgnoresCase(trimmed: string)
    ensures IsEditRequest(ToLower(trimmed)) == IsEditRequest(trimmed)
  {
    ToLowerIdempotent(trimmed);
  }

  /** The test is a plain prefix test, not a word test: "Address the bug"
      counts as an edit request, while "Please add a footer" does not and is
      echoed quoted, as typed. */
  lemma EditRequestByPrefix()
    ensures IsEditRequest("Address the bug")
    ensures !IsEditRequest("Please add a footer")
  {
    var yes, no := ToLower("Address the bug"), ToLower("Please add a footer");
    assert yes[0] == 'a' && yes[1] == 'd' && yes[2] == 'd';
    assert yes[..3] == "add";
    assert no[0] == 'p';
  }

  /** Every user message is non-empty and already trimmed. */
  predicate UserTextsTrimmed(chat: seq<ChatMessage>) {
    forall i :: 0 <= i < |chat| && chat[i].role == User ==> chat[i].text != [] && Trimmed(chat[i].text)
  }

  /** Every queued message is non-empty and already trimmed. */
  predicate AllTrimmed(texts: seq<string>) {
    forall i :: 0 <= i < |texts| ==> texts[i] != [] && Trimmed(texts[i])
  }

  // ------------------------------------------------------------ component

  /** The indices `lo`, `lo + 1`, ..., `hi - 1`. */
  function Range(lo: nat, hi: nat): (r: seq<nat>)
    requires lo <= hi
    ensures |r| == hi - lo && forall i :: 0 <= i < |r| ==> r[i] == lo + i
  {
    seq(hi - lo, i requires 0 <= i < hi - lo => lo + i)
  }

  /** The build screen's state. Props (`prompt`, `streamingCode`,
      `isComplete`) are fields its parent sets; every outstanding timer is
      explicit, and a timer firing is a method call. */
  class Builder {
    const prompt: string
    /** The narration schedule, computed from the prompt when the screen mounts. */
    const schedule: seq<Scheduled>
    var streamingCode: string
    var isComplete: bool
    var steps: seq<Step>
    var thinking: seq<ThinkingMessage>
    var chat: seq<ChatMessage>
    var chatInput: string
    var showThinkingDetail: bool
    var mounted: bool
    /** Narration timers still to fire, as schedule indices in firing order. */
    var narrationTimers: seq<nat>
    /** Collapse timers still to fire; they are never cleared. */
    var collapseTimers: nat
    /** Messages whose acknowledgement is still to come, oldest first; never cleared. */
    var replyTimers: seq<string>

    ghost predicate Valid()
      reads this
    {
      && StepsFollow(steps, |streamingCode|, isComplete)
      && NarrationFollows(schedule, thinking)
      && (narrationTimers == [] || (mounted && narrationTimers == Range(|thinking|, |schedule|)))
      && UserTextsTrimmed(chat)
      && AllTrimmed(replyTimers)
    }

    /** Mounting: the initial steps, the seven narration timers scheduled in
        the order of their delays, then the completion and step effects for the
        first props. */
    constructor (prompt: string, streamingCode: string, isComplete: bool)
      ensures Valid() && mounted
      ensures this.prompt == prompt && this.streamingCode == streamingCode && this.isComplete == isComplete
      ensures schedule == ThinkingSequence(prompt) && narrationTimers == Range(0, 7)
      ensures steps == StepEffect(InitialSteps, |streamingCode|, isComplete)
      ensures thinking == [] && chat == [] && chatInput == [] && showThinkingDetail
      ensures collapseTimers == (if isComplete then 1 else 0) && replyTimers == []
    {
      var sequence := ThinkingSequence(prompt);
      var timers: seq<nat> := [];
      for idx := 0 to |sequence|
        invariant timers == Range(0, idx)
      {
        timers := timers + [idx];
      }
      this.prompt := prompt;
      schedule := sequence;
      this.streamingCode := streamingCode;
      this.isComplete := isComplete;
      steps := StepEffect(InitialSteps, |streamingCode|, isComplete);
      thinking := [];
      chat := [];
      chatInput := [];
      showThinkingDetail := true;
      mounted := true;
      narrationTimers := timers;
      collapseTimers := if isComplete then 1 else 0;
      replyTimers := [];
      new;
      InitialReachable();
      StepEffectPreservesReachable(InitialSteps, |streamingCode|, isComplete);
    }

    /** The parent re-renders with new props. The completion effect runs when
        `isComplete` changed, the step effect when either prop changed. */
    method SetProps(code: string, complete: bool)
      requires Valid() && mounted
      modifies this
      ensures Valid() && mounted
      ensures streamingCode == code && isComplete == complete
      ensures steps == (if code != old(streamingCode) || complete != old(isComplete)
                        then StepEffect(old(steps), |code|, complete) else old(steps))
      ensures NoRegression(old(steps), steps)
      ensures thinking == (if complete && !old(isComplete) then MarkAllDone(old(thinking)) else old(thinking))
      ensures collapseTimers == old(collapseTimers) + (if complete && !old(isComplete) then 1 else 0)
      ensures chat == old(chat) && chatInput == old(chatInput) && showThinkingDetail == old(showThinkingDetail)
      ensures narrationTimers == old(narrationTimers) && replyTimers == old(replyTimers)
    {
      var completeChanged := complete != isComplete;
      var codeChanged := code != streamingCode;
      RerenderFollows(steps, |streamingCode|, isComplete, |code|, complete, codeChanged || completeChanged);
      var newSteps := if codeChanged || completeChanged then StepEffect(steps, |code|, complete) else steps;
      var newThinking := thinking;
      if completeChanged && complete {
        MarkAllDoneFollows(schedule, thinking);
        newThinking := MarkAllDone(thinking);
        collapseTimers := collapseTimers + 1;
      }
      streamingCode, isComplete, steps, thinking := code, complete, newSteps, newThinking;
    }

    /** The earliest narration timer fires: its message is appended, typing,
        and all earlier ones are marked done. Completion does not cancel these
        timers, so this also happens after the build is complete. */
    method FireNarration()
      requires Valid() && narrationTimers != []
      modifies this
      ensures Valid()
      ensures old(narrationTimers)[0] == |old(thinking)| && narrationTimers == old(narrationTimers)[1..]
      ensures thinking == AppendThinking(old(thinking), |old(thinking)|, schedule[|old(thinking)|].text)
      ensures forall i :: 0 <= i < |thinking| ==> (thinking[i].status == Typing <==> i == |thinking| - 1)
      ensures streamingCode == old(streamingCode) && isComplete == old(isComplete) && mounted == old(mounted)
      ensures steps == old(steps) && chat == old(chat) && chatInput == old(chatInput)
      ensures showThinkingDetail == old(showThinkingDetail)
      ensures collapseTimers == old(collapseTimers) && replyTimers == old(replyTimers)
    {
      var idx := narrationTimers[0];
      narrationTimers := narrationTimers[1..];
      AppendThinkingShape(thinking, idx, schedule[idx].text);
      thinking := AppendThinking(thinking, idx, schedule[idx].text);
    }

    /** A collapse timer fires: on a mounted screen the narration collapses. */
    method FireCollapse()
      requires Valid() && collapseTimers > 0
      modifies this
      ensures Valid()
      ensures collapseTimers == old(collapseTimers) - 1
      ensures showThinkingDetail == (old(showThinkingDetail) && !old(mounted))
      ensures streamingCode == old(streamingCode) && isComplete == old(isComplete) && mounted == old(mounted)
      ensures steps == old(steps) && thinking == old(thinking) && chat == old(chat) && chatInput == old(chatInput)
      ensures narrationTimers == old(narrationTimers) && replyTimers == old(replyTimers)
    {
      collapseTimers := collapseTimers - 1;
      if mounted {
        showThinkingDetail := false;
      }
    }

    /** Whether the one-line summary replaces the narration. */
    predicate ShowsSummary()
      reads this
    {
      isComplete && !showThinkingDetail
    }

    /** The Collapse/Expand button, shown only once the build is complete. */
    method ToggleDetail()
      requires Valid() && mounted && isComplete
      modifies this
      ensures Valid()
      ensures showThinkingDetail == !old(showThinkingDetail)
      ensures ShowsSummary() == !old(ShowsSummary())
      ensures streamingCode == old(streamingCode) && isComplete == old(isComplete) && mounted == old(mounted)
      ensures steps == old(steps) && thinking == old(thinking) && chat == old(chat) && chatInput == old(chatInput)
      ensures narrationTimers == old(narrationTimers) && collapseTimers == old(collapseTimers)
      ensures replyTimers == old(replyTimers)
    {
      showThinkingDetail := !showThinkingDetail;
    }

    /** Typing in the chat input, which is disabled until the build is complete. */
    method SetChatInput(text: string)
      requires Valid() && mounted && isComplete
      modifies this
      ensures Valid()
      ensures chatInput == text
      ensures streamingCode == old(streamingCode) && isComplete == old(isComplete) && mounted == old(mounted)
      ensures steps == old(steps) && thinking == old(thinking) && chat == old(chat)
      ensures showThinkingDetail == old(showThinkingDetail)
      ensures narrationTimers == old(narrationTimers) && collapseTimers == old(collapseTimers)
      ensures replyTimers == old(replyTimers)
    {
      chatInput := text;
    }

    /** Whether the send button is disabled: before completion, or when
        trimming the input leaves nothing, which is when it is all white space. */
    predicate SendDisabled()
      reads this
      ensures SendDisabled() <==> !isComplete || AllSpace(chatInput)
    {
      TrimEmptyIff(chatInput);
      !isComplete || Trim(chatInput) == []
    }

    /** `handleChatSubmit`: unless the input is only white space, the trimmed
        text is appended as a user message, the input is cleared, the parent's
        callback (if any) receives the trimmed text, and an acknowledgement is
        scheduled. `notified` is what the callback receives. */
    method SubmitChat(hasCallback: bool) returns (notified: Option<string>)
      requires Valid() && mounted
      modifies this
      ensures Valid()
      ensures AllSpace(old(chatInput)) ==>
        notified == None && chat == old(chat) && chatInput == old(chatInput) && replyTimers == old(replyTimers)
      ensures !AllSpace(old(chatInput)) ==>
        && chat == old(chat) + [ChatMessage(User, Trim(old(chatInput)))]
        && chatInput == []
        && replyTimers == old(replyTimers) + [Trim(old(chatInput))]
        && notified == (if hasCallback then Some(Trim(old(chatInput))) else None)
      ensures streamingCode == old(streamingCode) && isComplete == old(isComplete) && mounted == old(mounted)
      ensures steps == old(steps) && thinking == old(thinking) && showThinkingDetail == old(showThinkingDetail)
      ensures narrationTimers == old(narrationTimers) && collapseTimers == old(collapseTimers)
    {
      TrimEmptyIff(chatInput);
      var trimmed := Trim(chatInput);
      if trimmed == [] {
        notified := None;
      } else {
        assert UserTextsTrimmed(chat + [ChatMessage(User, trimmed)]);
        assert AllTrimmed(replyTimers + [trimmed]);
        chat, chatInput, replyTimers := chat + [ChatMessage(User, trimmed)], [], replyTimers + [trimmed];
        notified := if hasCallback then Some(trimmed) else None;
      }
    }

    /** A click on the send button: a disabled button does nothing, an enabled
        one submits. */
    method ClickSend(hasCallback: bool) returns (notified: Option<string>)
      requires Valid() && mounted
      modifies this
      ensures Valid()
      ensures old(SendDisabled()) ==>
        notified == None && chat == old(chat) && chatInput == old(chatInput) && replyTimers == old(replyTimers)
      ensures !old(SendDisabled()) ==>
        && chat == old(chat) + [ChatMessage(User, Trim(old(chatInput)))]
        && chatInput == []
        && replyTimers == old(replyTimers) + [Trim(old(chatInput))]
        && notified == (if hasCallback then Some(Trim(old(chatInput))) else None)
      ensures streamingCode == old(streamingCode) && isComplete == old(isComplete) && mounted == old(mounted)
      ensures steps == old(steps) && thinking == old(thinking) && showThinkingDetail == old(showThinkingDetail)
      ensures narrationTimers == old(narrationTimers) && collapseTimers == old(collapseTimers)
    {
      if SendDisabled() {
        notified := None;
      } else {
        notified := SubmitChat(hasCallback);
      }
    }

    /** A key press in the chat input: Enter submits once the build is
        complete; any other key, or Enter before completion, does nothing. */
    method PressChatKey(key: string, hasCallback: bool) returns (notified: Option<string>)
      requires Valid() && mounted
      modifies this
      ensures Valid()
      ensures key != "Enter" || !old(isComplete) || AllSpace(old(chatInput)) ==>
        notified == None && chat == old(chat) && chatInput == old(chatInput) && replyTimers == old(replyTimers)
      ensures key == "Enter" && old(isComplete) && !AllSpace(old(chatInput)) ==>
        && chat == old(chat) + [ChatMessage(User, Trim(old(chatInput)))]
        && chatInput == []
        && replyTimers == old(replyTimers) + [Trim(old(chatInput))]
        && notified == (if hasCallback then Some(Trim(old(chatInput))) else None)
      ensures streamingCode == old(streamingCode) && isComplete == old(isComplete) && mounted == old(mounted)
      ensures steps == old(steps) && thinking == old(thinking) && showThinkingDetail == old(showThinkingDetail)
      ensures narrationTimers == old(narrationTimers) && collapseTimers == old(collapseTimers)
    {
      if key == "Enter" && isComplete {
        notified := SubmitChat(hasCallback);
      } else {
        notified := None;
      }
    }

    /** The oldest acknowledgement timer fires: on a mounted screen the canned
        reply to that message is appended. */
    method FireReply()
      requires Valid() && replyTimers != []
      modifies this
      ensures Valid()
      ensures replyTimers == old(replyTimers)[1..]
      ensures chat == (if old(mounted) then old(chat) + [ChatMessage(Ai, ReplyText(old(replyTimers)[0]))] else old(chat))
      ensures streamingCode == old(streamingCode) && isComplete == old(isComplete) && mounted == old(mounted)
      ensures steps == old(steps) && thinking == old(thinking) && chatInput == old(chatInput)
      ensures showThinkingDetail == old(showThinkingDetail)
      ensures narrationTimers == old(narrationTimers) && collapseTimers == old(collapseTimers)
    {
      var trimmed := replyTimers[0];
      replyTimers := replyTimers[1..];
      if mounted {
        chat := chat + [ChatMessage(Ai, ReplyText(trimmed))];
      }
    }

    /** Unmounting clears the narration timers; the collapse and reply timers
        stay scheduled, and their later firing changes nothing on screen. */
    method Unmount()
      requires Valid()
      modifies this
      ensures Valid() && !mounted && narrationTimers == []
      ensures streamingCode == old(streamingCode) && isComplete == old(isComplete)
      ensures steps == old(steps) && thinking == old(thinking) && chat == old(chat) && chatInput == old(chatInput)
      ensures showThinkingDetail == old(showThinkingDetail)
      ensures collapseTimers == old(collapseTimers) && replyTimers == old(replyTimers)
    {
      mounted := false;
      narrationTimers := [];
    }
  }
}
