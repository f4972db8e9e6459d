/**
 * The chat view and the worker together.  At start-up the view has the
 * worker load the pipeline.  In an exchange the user sends the composer's
 * text, the view's effect posts `generate`, the worker answers with its
 * events in order, and the view applies them.
 */
module Session {
  import opened Protocol
  import Ui
  import Worker

  /** The assistant turn an exchange ends with, when every library call resolves. */
  function Reply(content: string, lib: Worker.Library): Message
    requires Worker.StartsWith(content, Worker.ImageGenerationCommandPrefix) ==> lib.image.Some?
  {
    if Worker.StartsWith(content, Worker.ImageGenerationCommandPrefix)
    then Message(AssistantRole, "", Some(lib.image.value.objectUrl))
    else Message(AssistantRole, Worker.Outputs(lib.textCalls), None)
  }

  /**
   * The `text-update`s of one text generation grow the last message by all
   * the decoded text, in order, and leave everything else in the list and
   * the running flag alone.
   */
  lemma {:induction false} TextUpdatesAppend(s: Ui.UiState, calls: seq<Worker.TextCall>)
    ensures Ui.Run(s, Worker.TextEvents(calls)).messages ==
            Ui.AppendOutput(s.messages, Worker.Outputs(calls))
    ensures Ui.Run(s, Worker.TextEvents(calls)).isRunning == s.isRunning
    decreases |calls|
  {
    if calls == [] {
      Ui.AppendOutputEmpty(s.messages);
    } else {
      var init := calls[..|calls| - 1];
      TextUpdatesAppend(s, init);
      match calls[|calls| - 1]
      case TokenPut(_) =>
      case TextChunk(output) =>
        var c := Worker.Ticks(Worker.Stamps(init));
        var e := TextUpdate(output, c.tps, c.numTokens);
        assert Worker.TextEvents(calls) == Worker.TextEvents(init) + [e];
        Ui.RunAppend(s, Worker.TextEvents(init), [e]);
        var mid := Ui.Run(s, Worker.TextEvents(init));
        assert Ui.Run(mid, [e]) == Ui.Step(mid, e);
        Ui.AppendOutputTwice(s.messages, Worker.Outputs(init), output);
    }
  }

  /** Image progress reports change no message and leave the running flag alone. */
  lemma {:induction false} ImageReportsKeepMessages(s: Ui.UiState, total: int, puts: seq<real>)
    ensures Ui.Run(s, Worker.ImageEvents(total, puts)).messages == s.messages
    ensures Ui.Run(s, Worker.ImageEvents(total, puts)).isRunning == s.isRunning
    decreases |puts|
  {
    if |puts| > 1 {
      var init := puts[..|puts| - 1];
      ImageReportsKeepMessages(s, total, init);
      Ui.RunAppend(s, Worker.ImageEvents(total, init), [Worker.ImageReport(total, puts, |puts| - 1)]);
    }
  }

  /** The result of an image generation: the last message shows the image. */
  lemma {:induction false} ImageUpdatesShow(s: Ui.UiState, total: int, puts: seq<real>, image: Blob)
    ensures Ui.Run(s, Worker.ImageEvents(total, puts) + [ImageUpdate(Some(image), None, None)]).messages ==
            Ui.SetLastImage(s.messages, image.objectUrl)
    ensures Ui.Run(s, Worker.ImageEvents(total, puts) + [ImageUpdate(Some(image), None, None)]).isRunning ==
            s.isRunning
  {
    ImageReportsKeepMessages(s, total, puts);
    Ui.RunAppend(s, Worker.ImageEvents(total, puts), [ImageUpdate(Some(image), None, None)]);
  }

  /** Applying `start`, some updates and `complete` is applying each part in turn. */
  lemma {:induction false} Bracketed(s: Ui.UiState, updates: seq<Event>)
    ensures Ui.Run(s, [Start] + updates + [Complete]) ==
            Ui.Step(Ui.Run(Ui.Step(s, Start), updates), Complete)
  {
    assert ([Start] + updates + [Complete])[0] == Start;
    assert ([Start] + updates + [Complete])[1..] == updates + [Complete];
    Ui.RunAppend(Ui.Step(s, Start), updates, [Complete]);
  }

  /**
   * The view's state after it has applied everything `generate(ms)` posts,
   * where `ms` ends with the turn just sent.  When every library call
   * resolves, the assistant's reply follows that turn and the run is over;
   * when one rejects, no `complete` arrives and the run goes on.  The
   * composer is untouched either way.
   */
  lemma GenerateAnswers(s: Ui.UiState, processor: Option<Worker.Processor>, model: Option<Worker.Model>,
                        lib: Worker.Library)
    requires s.messages != []
    ensures var last := s.messages[|s.messages| - 1];
            var t := Ui.Run(s, Worker.GenerateEvents(s.messages, processor, model, lib));
            t.input == s.input && t.image == s.image &&
            (Worker.Completes(last, processor, model, lib) ==>
               t.messages == s.messages + [Reply(last.content, lib)] && !t.isRunning) &&
            (!Worker.Completes(last, processor, model, lib) ==> t.isRunning == s.isRunning)
  {
    var last := s.messages[|s.messages| - 1];
    var evs := Worker.GenerateEvents(s.messages, processor, model, lib);
    Ui.RunKeepsComposer(s, evs);
    Worker.GenerateOrder(s.messages, processor, model, lib);
    Ui.RunKeepsRunning(s, evs);
    if Worker.Completes(last, processor, model, lib) {
      var p := Worker.GetInstanceOutcome(processor, model, lib, false).processor.value;
      var updates := Worker.Updates(last, p, lib);
      assert evs == [Start] + updates + [Complete];
      Bracketed(s, updates);
      var placed := Ui.Step(s, Start);
      UpdatesAnswer(placed, last, p, lib);
      var answered := Ui.Run(placed, updates);
      assert answered.messages == s.messages + [Reply(last.content, lib)];
      assert Ui.Run(s, evs) == Ui.Step(answered, Complete);
    }
  }

  /** When every call resolves, the updates answering `m` turn the placeholder after it into the reply. */
  lemma UpdatesAnswer(s: Ui.UiState, m: Message, processor: Worker.Processor, lib: Worker.Library)
    requires s.messages != [] && s.messages[|s.messages| - 1] == Ui.Placeholder
    requires Worker.Answered(m, lib)
    ensures Ui.Run(s, Worker.Updates(m, processor, lib)).messages ==
            s.messages[..|s.messages| - 1] + [Reply(m.content, lib)]
    ensures Ui.Run(s, Worker.Updates(m, processor, lib)).isRunning == s.isRunning
  {
    if Worker.Route(m).ImagePlan? {
      ImageUpdatesShow(s, processor.numImageTokens, lib.imagePuts, lib.image.value);
    } else {
      TextUpdatesAppend(s, lib.textCalls);
      assert "" + Worker.Outputs(lib.textCalls) == Worker.Outputs(lib.textCalls);
    }
  }

  /**
   * While the events of a generation arrive, the view's effect posts no
   * further request: from `start` on, the assistant has the last word.
   */
  lemma QuietWhileAnswering(s: Ui.UiState, evs: seq<Event>, k: nat)
    requires evs != [] && evs[0] == Start && 1 <= k <= |evs|
    ensures Ui.AutoGenerate(Ui.Run(s, evs[..k])).1 == None
  {
    var prefix := evs[..k];
    assert prefix[0] == Start;
    Ui.RunKeepsAssistantLast(Ui.Step(s, Start), prefix[1..]);
  }

  /** The kinds of report the library's `progress_callback` receives while fetching files. */
  predicate IsProgressReport(e: Event)
  {
    e.Initiate? || e.Progress? || e.Done? || e.Other?
  }

  /** What `getInstance` passes to its callback are the libraries' own reports. */
  lemma ReportsAreProgress(processor: Option<Worker.Processor>, model: Option<Worker.Model>,
                           lib: Worker.Library)
    requires forall i :: 0 <= i < |lib.processor.reports| ==> IsProgressReport(lib.processor.reports[i])
    requires forall i :: 0 <= i < |lib.model.reports| ==> IsProgressReport(lib.model.reports[i])
    ensures var reports := Worker.GetInstanceOutcome(processor, model, lib, true).reports;
            forall i :: 0 <= i < |reports| ==> !(reports[i].CheckSuccess? || reports[i].LoadingStarted? || reports[i].Ready?)
  {
    var r := Worker.GetInstanceOutcome(processor, model, lib, true);
    var first := if processor.None? then lib.processor.reports else [];
    var second := if r.processor.Some? && model.None? then lib.model.reports else [];
    assert r.reports == first + second;
    assert forall i :: 0 <= i < |first| ==> IsProgressReport(first[i]);
    assert forall i :: 0 <= i < |second| ==> IsProgressReport(second[i]);
  }

  /**
   * After the view applies everything `load` posts, the status is `ready`
   * when loading resolves, and stays `loading` when a load rejects, given
   * that the library reports only download progress meanwhile.
   */
  lemma LoadSettles(s: Ui.UiState, processor: Option<Worker.Processor>, model: Option<Worker.Model>,
                    lib: Worker.Library)
    requires forall i :: 0 <= i < |lib.processor.reports| ==> IsProgressReport(lib.processor.reports[i])
    requires forall i :: 0 <= i < |lib.model.reports| ==> IsProgressReport(lib.model.reports[i])
    ensures Ui.Run(s, Worker.LoadEvents(processor, model, lib)).status ==
            Some(if Worker.GetInstanceOutcome(processor, model, lib, true).Resolves()
                 then Ui.Status.Ready else Ui.Status.Loading)
  {
    var r := Worker.GetInstanceOutcome(processor, model, lib, true);
    var start := LoadingStarted(Worker.LoadingMessage);
    var started := Ui.Step(s, start);
    assert started.status == Some(Ui.Status.Loading);
    ReportsAreProgress(processor, model, lib);
    Ui.RunKeepsStatus(started, r.reports);
    var tail := if r.Resolves() then [Event.Ready] else [];
    var evs := Worker.LoadEvents(processor, model, lib);
    assert evs == [start] + (r.reports + tail);
    assert evs[0] == start && evs[1..] == r.reports + tail;
    assert Ui.Run(s, evs) == Ui.Run(started, r.reports + tail);
    Ui.RunAppend(started, r.reports, tail);
    var loaded := Ui.Run(started, r.reports);
    assert Ui.Run(loaded, tail) == if r.Resolves() then Ui.Step(loaded, Event.Ready) else loaded;
  }

  /**
   * Enter on a composer with text, outside a run, sends that text with the
   * pending image, and the effect then posts `generate` with the new list.
   */
  lemma EnterPostsGenerate(s: Ui.UiState)
    requires |s.input| > 0 && !s.isRunning
    ensures var sent := Ui.OnKeyDown(s, "Enter", false);
            var auto := Ui.AutoGenerate(sent.0);
            sent.1 && auto.1 == Some(Generate(auto.0.messages)) &&
            auto.0.messages == s.messages + [Message(UserRole, s.input, s.image)] &&
            auto.0.isRunning && auto.0.input == "" && auto.0.image == None
  {
    Ui.EnterTriggersGenerate(s, s.input, s.image);
  }

  /**
   * Start-up: the view in its initial state hears that the feature check
   * succeeded and asks a fresh worker to load.  Once the view has applied
   * what the worker posts, the status is `ready` exactly when both loads
   * resolved, and then the pipeline holds the pair; no chat has started.
   */
  method Startup(fp16: bool, lib: Worker.Library)
    returns (t: Ui.UiState, processor: Option<Worker.Processor>, model: Option<Worker.Model>)
    requires forall i :: 0 <= i < |lib.processor.reports| ==> IsProgressReport(lib.processor.reports[i])
    requires forall i :: 0 <= i < |lib.model.reports| ==> IsProgressReport(lib.model.reports[i])
    ensures t.status == Some(Ui.Status.Ready) <==> processor.Some? && model.Some?
    ensures t.status == Some(Ui.Status.Ready) || t.status == Some(Ui.Status.Loading)
    ensures processor == Worker.GetInstanceOutcome(None, None, lib, true).processor
    ensures model == Worker.GetInstanceOutcome(None, None, lib, true).model
    ensures t.messages == [] && !t.isRunning && t.input == ""
  {
    var checked := Ui.Step(Ui.Initial, CheckSuccess(fp16));
    var worker := new Worker.Scope();
    var _ := worker.OnMessage(Load, lib);
    processor, model := worker.pipeline.processor, worker.pipeline.model;
    var posted := worker.outbox;
    assert posted == Worker.LoadEvents(None, None, lib);
    t := Ui.Run(checked, posted);
    LoadSettles(checked, None, None, lib);
    Ui.RunKeepsComposer(checked, posted);
    assert t.messages == [] && !t.isRunning by {
      LoadKeepsChat(checked, lib);
    }
  }

  /** The events of a load leave the chat alone: no message, and the running flag as it was. */
  lemma LoadKeepsChat(s: Ui.UiState, lib: Worker.Library)
    requires forall i :: 0 <= i < |lib.processor.reports| ==> IsProgressReport(lib.processor.reports[i])
    requires forall i :: 0 <= i < |lib.model.reports| ==> IsProgressReport(lib.model.reports[i])
    ensures Ui.Run(s, Worker.LoadEvents(None, None, lib)).messages == s.messages
    ensures Ui.Run(s, Worker.LoadEvents(None, None, lib)).isRunning == s.isRunning
  {
    var evs := Worker.LoadEvents(None, None, lib);
    var r := Worker.GetInstanceOutcome(None, None, lib, true);
    assert forall i :: 0 <= i < |evs| ==> evs[i] != Complete && !(evs[i].Start? || evs[i].TextUpdate? || evs[i].ImageUpdate?) by {
      assert evs == [LoadingStarted(Worker.LoadingMessage)] + r.reports + (if r.Resolves() then [Event.Ready] else []);
    }
    Ui.RunKeepsRunning(s, evs);
    Ui.RunKeepsMessages(s, evs);
  }

  /**
   * A whole exchange, with the pipeline's slots as they stand: Enter sends
   * the composer's text with the pending image, the view posts `generate`,
   * and the worker's events are applied.  When every library call resolves,
   * the list holds the user turn and the reply and the run is over; when
   * one rejects, the run never ends, so whatever the user types next, Enter
   * sends nothing.  Either way the composer is clear and no further request
   * is posted.
   */
  method Exchange(s: Ui.UiState, processor: Option<Worker.Processor>, model: Option<Worker.Model>,
                  lib: Worker.Library)
    returns (t: Ui.UiState, posted: seq<Event>)
    requires |s.input| > 0 && !s.isRunning
    ensures var turn := Message(UserRole, s.input, s.image);
            Worker.Completes(turn, processor, model, lib) ==>
              t.messages == s.messages + [turn, Reply(s.input, lib)] && !t.isRunning &&
              |posted| >= 2 && posted[|posted| - 1] == Complete
    ensures !Worker.Completes(Message(UserRole, s.input, s.image), processor, model, lib) ==>
              t.isRunning && Complete !in posted &&
              forall text, key, shiftKey :: !Ui.OnKeyDown(t.(input := text), key, shiftKey).1
    ensures t.input == "" && t.image == None
    ensures posted != [] && posted[0] == Start
    ensures Ui.AutoGenerate(t).1 == None
  {
    var turn := Message(UserRole, s.input, s.image);
    EnterPostsGenerate(s);
    var s2 := Ui.AutoGenerate(Ui.OnKeyDown(s, "Enter", false).0).0;
    var worker := new Worker.Scope();
    worker.pipeline.processor, worker.pipeline.model := processor, model;
    var _ := worker.OnMessage(Generate(s2.messages), lib);
    posted := worker.outbox;
    assert posted == Worker.GenerateEvents(s2.messages, processor, model, lib);
    t := Ui.Run(s2, posted);
    var done := Worker.Completes(turn, processor, model, lib);
    assert posted != [] && posted[0] == Start &&
           (done ==> |posted| >= 2 && posted[|posted| - 1] == Complete) &&
           (!done ==> Complete !in posted) by {
      Worker.GenerateOrder(s2.messages, processor, model, lib);
    }
    assert t.input == "" && t.image == None &&
           (done ==> t.messages == s.messages + [turn, Reply(s.input, lib)] && !t.isRunning) &&
           (!done ==> t.isRunning) by {
      assert s2.messages[|s2.messages| - 1] == turn;
      assert done ==> s2.messages + [Reply(s.input, lib)] == s.messages + [turn, Reply(s.input, lib)];
      GenerateAnswers(s2, processor, model, lib);
    }
    assert Ui.AutoGenerate(t).1 == None by {
      assert posted[..|posted|] == posted;
      QuietWhileAnswering(s2, posted, |posted|);
    }
  }
}
