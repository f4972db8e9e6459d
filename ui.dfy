/**
 * The chat view (src/App.tsx): the state the component keeps, the reducer
 * that applies one worker event to it, and the user-side steps that feed
 * the worker (sending a message, the automatic generate request, the
 * composer's height clamp).
 *
 * The component's hooks replace each piece of state by a new value computed
 * from the previous one, so the state is a record and each event a function
 * from the old record to the new one.
 */
module Ui {
  import opened Protocol

  datatype Status = Idle | Loading | Ready

  datatype UiState = UiState(
    status: Option<Status>,            // null until the feature check answers
    error: Option<string>,
    loadingMessage: string,
    progressItems: seq<Record>,        // one download report per file being fetched
    isRunning: bool,
    input: string,                     // the composer's text
    image: Option<string>,             // the image attached to the next message
    messages: seq<Message>,
    tps: Option<Rate>,
    numTokens: Option<nat>,
    imageProgress: Option<Ratio>,
    imageGenerationTime: Option<real>)

  /** The state on first render. */
  const Initial := UiState(None, None, "", [], false, "", None, [], None, None, None, None)

  /** The empty assistant turn that `start` opens. */
  const Placeholder := Message(AssistantRole, "", None)

  // ---------------------------------------------------------------------
  // Download progress items
  // ---------------------------------------------------------------------

  /** `initiate`: the report becomes a new item at the end of the list. */
  function AddItem(items: seq<Record>, report: Record): (r: seq<Record>)
    ensures |r| == |items| + 1
    ensures r[..|items|] == items
    ensures r[|items|] == report
  {
    items + [report]
  }

  /** One item under a `progress` report: overlaid when it is about the same file. */
  function MergeItem(item: Record, report: Record): Record
  {
    if FileOf(item) == FileOf(report) then Overlay(item, report) else item
  }

  /**
   * `progress`: every item about the report's file gets the report's fields
   * laid over its own; all other items stay as they are, in place.
   */
  function MergeProgress(items: seq<Record>, report: Record): (r: seq<Record>)
    ensures |r| == |items|
    ensures forall i :: 0 <= i < |items| && FileOf(items[i]) == FileOf(report) ==>
              r[i] == Overlay(items[i], report)
    ensures forall i :: 0 <= i < |items| && FileOf(items[i]) != FileOf(report) ==>
              r[i] == items[i]
  {
    if items == [] then []
    else [MergeItem(items[0], report)] + MergeProgress(items[1..], report)
  }

  /** `done`: drops every item about the report's file, keeping the rest. */
  function RemoveDone(items: seq<Record>, report: Record): (r: seq<Record>)
    ensures |r| <= |items|
    ensures forall x :: x in r <==> x in items && FileOf(x) != FileOf(report)
  {
    if items == [] then []
    else if FileOf(items[0]) != FileOf(report) then [items[0]] + RemoveDone(items[1..], report)
    else RemoveDone(items[1..], report)
  }

  /** `done` keeps the surviving items in their original order: it distributes over concatenation. */
  lemma {:induction false} RemoveDoneAppend(xs: seq<Record>, ys: seq<Record>, report: Record)
    ensures RemoveDone(xs + ys, report) == RemoveDone(xs, report) + RemoveDone(ys, report)
  {
    if xs == [] {
      assert xs + ys == ys;
    } else {
      assert (xs + ys)[0] == xs[0];
      assert (xs + ys)[1..] == xs[1..] + ys;
      RemoveDoneAppend(xs[1..], ys, report);
    }
  }

  /** `done` leaves a list with no item about the report's file exactly as it was. */
  lemma {:induction false} RemoveDoneNoMatch(items: seq<Record>, report: Record)
    requires forall i :: 0 <= i < |items| ==> FileOf(items[i]) != FileOf(report)
    ensures RemoveDone(items, report) == items
  {
    if items != [] {
      RemoveDoneNoMatch(items[1..], report);
    }
  }

  /**
   * `initiate` followed by `done` for the same file undoes the `initiate`,
   * when no earlier item was about that file.
   */
  lemma InitiateThenDone(items: seq<Record>, report: Record)
    requires forall i :: 0 <= i < |items| ==> FileOf(items[i]) != FileOf(report)
    ensures RemoveDone(AddItem(items, report), report) == items
  {
    RemoveDoneAppend(items, [report], report);
    RemoveDoneNoMatch(items, report);
  }

  /**
   * A `progress` report never changes which file an item is about, so a
   * later `done` removes the same items it would have removed before.
   */
  lemma {:induction false} MergeKeepsFiles(items: seq<Record>, report: Record)
    ensures forall i :: 0 <= i < |items| ==>
              FileOf(MergeProgress(items, report)[i]) == FileOf(items[i])
    ensures RemoveDone(MergeProgress(items, report), report) == RemoveDone(items, report)
  {
    if items != [] {
      MergeKeepsFiles(items[1..], report);
      var m := MergeProgress(items, report);
      assert m == [MergeItem(items[0], report)] + MergeProgress(items[1..], report);
      assert FileOf(m[0]) == FileOf(items[0]);
      assert m[1..] == MergeProgress(items[1..], report);
    }
  }

  // ---------------------------------------------------------------------
  // Chat messages
  // ---------------------------------------------------------------------

  /** `text-update`: the last message's content grows by `output`; its role and image stay. */
  function AppendOutput(ms: seq<Message>, output: string): (r: seq<Message>)
    ensures |r| == |ms|
    ensures ms != [] ==> r[..|ms| - 1] == ms[..|ms| - 1]
    ensures ms != [] ==> r[|ms| - 1].content == ms[|ms| - 1].content + output
    ensures ms != [] ==> r[|ms| - 1].role == ms[|ms| - 1].role
    ensures ms != [] ==> r[|ms| - 1].image == ms[|ms| - 1].image
  {
    if ms == [] then ms
    else
      var last := ms[|ms| - 1];
      ms[..|ms| - 1] + [Message(last.role, last.content + output, last.image)]
  }

  /** A `text-update` with no text changes no message. */
  lemma AppendOutputEmpty(ms: seq<Message>)
    ensures AppendOutput(ms, "") == ms
  {
    if ms != [] {
      var last := ms[|ms| - 1];
      assert last.content + "" == last.content;
      assert ms[..|ms| - 1] + [last] == ms;
    }
  }

  /** Two `text-update`s in a row amount to one carrying both outputs. */
  lemma AppendOutputTwice(ms: seq<Message>, a: string, b: string)
    ensures AppendOutput(AppendOutput(ms, a), b) == AppendOutput(ms, a + b)
  {
    if ms != [] {
      var n := |ms|;
      var once := AppendOutput(ms, a);
      assert once[..n - 1] == ms[..n - 1];
      assert ms[n - 1].content + a + b == ms[n - 1].content + (a + b);
    }
  }

  /** `image-update` with a blob: the last message shows the image; role and content stay. */
  function SetLastImage(ms: seq<Message>, url: string): (r: seq<Message>)
    ensures |r| == |ms|
    ensures ms != [] ==> r[..|ms| - 1] == ms[..|ms| - 1]
    ensures ms != [] ==> r[|ms| - 1] == ms[|ms| - 1].(image := Some(url))
  {
    if ms == [] then ms
    else ms[..|ms| - 1] + [ms[|ms| - 1].(image := Some(url))]
  }

  // ---------------------------------------------------------------------
  // The reducer
  // ---------------------------------------------------------------------

  /**
   * `onMessageReceived`: one worker event applied to the view state.  Worker
   * events never touch the composer, only `complete` stops the run, the
   * message list grows only on `start`, and only `start`, `text-update` and
   * `image-update` change it at all, the last two only in its last entry and
   * never in its role.
   */
  function Step(s: UiState, e: Event): (t: UiState)
    ensures t.input == s.input && t.image == s.image
    ensures t.isRunning == (s.isRunning && !e.Complete?)
    ensures e.Start? ==> t.messages == s.messages + [Placeholder]
    ensures !e.Start? ==> |t.messages| == |s.messages|
    ensures !e.Start? ==> forall i :: 0 <= i < |s.messages| - 1 ==> t.messages[i] == s.messages[i]
    ensures !e.Start? && s.messages != [] ==>
              t.messages[|s.messages| - 1].role == s.messages[|s.messages| - 1].role
    ensures !(e.Start? || e.TextUpdate? || e.ImageUpdate?) ==> t.messages == s.messages
    ensures e.ImageUpdate? && e.blob.None? ==>
              t == s.(imageProgress := e.progress, imageGenerationTime := e.time)
    ensures !(e.Initiate? || e.Progress? || e.Done?) ==> t.progressItems == s.progressItems
    ensures !(e.CheckSuccess? || e.LoadingStarted? || e.Ready?) ==> t.status == s.status
  {
    match e
    case CheckSuccess(_) => s.(status := Some(Idle))
    case CheckError(message) => s.(error := Some(message))
    case LoadingStarted(message) => s.(status := Some(Loading), loadingMessage := message)
    case Initiate(item) => s.(progressItems := AddItem(s.progressItems, item))
    case Progress(item) => s.(progressItems := MergeProgress(s.progressItems, item))
    case Done(item) => s.(progressItems := RemoveDone(s.progressItems, item))
    case Ready => s.(status := Some(Status.Ready))
    case Start => s.(messages := s.messages + [Placeholder])
    case TextUpdate(output, tps, numTokens) =>
      s.(tps := tps, numTokens := Some(numTokens), messages := AppendOutput(s.messages, output))
    case ImageUpdate(blob, progress, time) =>
      if blob.Some? then s.(messages := SetLastImage(s.messages, blob.value.objectUrl))
      else s.(imageProgress := progress, imageGenerationTime := time)
    case Complete => s.(isRunning := false)
    case Other(_) => s
  }

  /** The view after it has received `es`, in order. */
  function Run(s: UiState, es: seq<Event>): UiState
    decreases |es|
  {
    if es == [] then s else Run(Step(s, es[0]), es[1..])
  }

  lemma {:induction false} RunAppend(s: UiState, xs: seq<Event>, ys: seq<Event>)
    ensures Run(s, xs + ys) == Run(Run(s, xs), ys)
    decreases |xs|
  {
    if xs == [] {
      assert xs + ys == ys;
    } else {
      assert (xs + ys)[0] == xs[0];
      assert (xs + ys)[1..] == xs[1..] + ys;
      RunAppend(Step(s, xs[0]), xs[1..], ys);
    }
  }

  /** Worker events never change what the user is typing or the attached image. */
  lemma {:induction false} RunKeepsComposer(s: UiState, es: seq<Event>)
    ensures Run(s, es).input == s.input && Run(s, es).image == s.image
    decreases |es|
  {
    if es != [] {
      RunKeepsComposer(Step(s, es[0]), es[1..]);
    }
  }

  /** The run is over after a sequence of worker events exactly when it was over before or one of them is `complete`. */
  lemma {:induction false} RunKeepsRunning(s: UiState, es: seq<Event>)
    ensures Run(s, es).isRunning == (s.isRunning && Complete !in es)
    decreases |es|
  {
    if es != [] {
      RunKeepsRunning(Step(s, es[0]), es[1..]);
      assert es == [es[0]] + es[1..];
    }
  }

  /** Events other than `success`, `loading` and `ready` never change the load status. */
  lemma {:induction false} RunKeepsStatus(s: UiState, es: seq<Event>)
    requires forall i :: 0 <= i < |es| ==> !(es[i].CheckSuccess? || es[i].LoadingStarted? || es[i].Ready?)
    ensures Run(s, es).status == s.status
    decreases |es|
  {
    if es != [] {
      RunKeepsStatus(Step(s, es[0]), es[1..]);
    }
  }

  /** Events other than `start`, `text-update` and `image-update` never change the messages. */
  lemma {:induction false} RunKeepsMessages(s: UiState, es: seq<Event>)
    requires forall i :: 0 <= i < |es| ==> !(es[i].Start? || es[i].TextUpdate? || es[i].ImageUpdate?)
    ensures Run(s, es).messages == s.messages
    decreases |es|
  {
    if es != [] {
      RunKeepsMessages(Step(s, es[0]), es[1..]);
    }
  }

  /** Once the last message is the assistant's, it stays so whatever events follow. */
  lemma {:induction false} RunKeepsAssistantLast(s: UiState, es: seq<Event>)
    requires s.messages != [] && s.messages[|s.messages| - 1].role == AssistantRole
    ensures Run(s, es).messages != []
    ensures Run(s, es).messages[|Run(s, es).messages| - 1].role == AssistantRole
    decreases |es|
  {
    if es != [] {
      RunKeepsAssistantLast(Step(s, es[0]), es[1..]);
    }
  }

  // ---------------------------------------------------------------------
  // User-side steps
  // ---------------------------------------------------------------------

  /**
   * `onEnter(message, img)`: the user turn carries `img`, or the pending
   * image when `img` is null or undefined (`None`); the run starts and the
   * composer and the per-run readings are cleared.
   */
  function OnEnter(s: UiState, message: string, img: Option<string>): (t: UiState)
    ensures |t.messages| == |s.messages| + 1 && t.messages[..|s.messages|] == s.messages
    ensures t.messages[|s.messages|].role == UserRole
    ensures t.messages[|s.messages|].content == message
    ensures t.messages[|s.messages|].image == (if img.Some? then img else s.image)
    ensures t.isRunning && t.input == "" && t.image == None
    ensures t.tps == None && t.numTokens == None
    ensures t.imageProgress == None && t.imageGenerationTime == None
    ensures t.status == s.status && t.error == s.error && t.progressItems == s.progressItems
    ensures t.loadingMessage == s.loadingMessage
  {
    var turn := Message(UserRole, message, if img.Some? then img else s.image);
    s.(messages := s.messages + [turn], tps := None, isRunning := true, input := "",
       image := None, numTokens := None, imageProgress := None, imageGenerationTime := None)
  }

  /**
   * The composer's key handler: Enter without Shift sends the typed text with
   * the pending image, provided there is text and no run is in progress.
   */
  function OnKeyDown(s: UiState, key: string, shiftKey: bool): (r: (UiState, bool))
    ensures r.1 <==> |s.input| > 0 && !s.isRunning && key == "Enter" && !shiftKey
    ensures r.1 ==> r.0 == OnEnter(s, s.input, s.image)
    ensures !r.1 ==> r.0 == s
  {
    if |s.input| > 0 && !s.isRunning && key == "Enter" && !shiftKey
    then (OnEnter(s, s.input, s.image), true)
    else (s, false)
  }

  /** How many messages are from the user. */
  function UserCount(ms: seq<Message>): (n: nat)
    ensures n <= |ms|
    ensures n == 0 <==> forall i :: 0 <= i < |ms| ==> ms[i].role != UserRole
  {
    if ms == [] then 0
    else (if ms[0].role == UserRole then 1 else 0) + UserCount(ms[1..])
  }

  /** The guard of the effect that asks the worker to generate. */
  predicate ShouldGenerate(ms: seq<Message>)
  {
    UserCount(ms) != 0 && ms[|ms| - 1].role != AssistantRole
  }

  /**
   * The effect that runs whenever the messages or the running flag change:
   * it posts `generate` with the whole list exactly when some message is
   * from the user and the last one is not from the assistant, clearing the
   * rate reading first.
   */
  function AutoGenerate(s: UiState): (r: (UiState, Option<Request>))
    ensures r.1.Some? <==>
              (exists i :: 0 <= i < |s.messages| && s.messages[i].role == UserRole) &&
              s.messages[|s.messages| - 1].role != AssistantRole
    ensures r.1.Some? ==> r.1.value == Generate(s.messages) && r.0 == s.(tps := None)
    ensures r.1.None? ==> r.0 == s
  {
    if ShouldGenerate(s.messages) then (s.(tps := None), Some(Generate(s.messages)))
    else (s, None)
  }

  /** A message just sent always triggers a generate request. */
  lemma EnterTriggersGenerate(s: UiState, message: string, img: Option<string>)
    ensures AutoGenerate(OnEnter(s, message, img)).1 == Some(Generate(OnEnter(s, message, img).messages))
  {
  }

  /** Once the assistant has the last word, no further request is posted. */
  lemma AssistantLastIsQuiet(s: UiState)
    requires s.messages != [] && s.messages[|s.messages| - 1].role == AssistantRole
    ensures AutoGenerate(s) == (s, None)
  {
  }

  function Min(a: int, b: int): int { if a <= b then a else b }
  function Max(a: int, b: int): int { if a >= b then a else b }

  /**
   * `resizeInput`: the composer's height follows its content height, held
   * between 24 and 200 pixels.
   */
  function ResizeHeight(scrollHeight: int): (h: int)
    ensures 24 <= h <= 200
    ensures 24 <= scrollHeight <= 200 ==> h == scrollHeight
    ensures scrollHeight < 24 ==> h == 24
    ensures scrollHeight > 200 ==> h == 200
  {
    Min(Max(scrollHeight, 24), 200)
  }
}
