/**
 * The generation worker (src/worker.ts): the request dispatcher, the lazily
 * loaded processor/model pair, the image progress streamer, the token
 * counter of text generation, and the order of the events `generate` posts.
 *
 * The inference library is not modelled.  What its calls return and how
 * they drive the streamers is given as a `Library` value: whether each
 * `from_pretrained` resolves, to what, and the progress reports it makes;
 * whether preparing the inputs and generating resolve; the calls
 * `model.generate` makes on the text streamer; the times at which
 * `generate_images` calls `put`; and the image, if encoding it resolves.
 * Nothing in the worker catches a rejection, so a rejected call ends
 * `generate` or `load` before `complete` or `ready` is posted.
 */
module Worker {
  import opened Protocol

  const ImageGenerationCommandPrefix := "/imagine "
  const MaxNewTextTokens := 1024
  const SystemPrompt := "You are a helpful assistant. Answer concisely."
  const ImagePlaceholder := "<image_placeholder>\n"
  const LoadingMessage := "Loading model..."

  // ---------------------------------------------------------------------
  // Strings
  // ---------------------------------------------------------------------

  predicate StartsWith(s: string, prefix: string)
  {
    |prefix| <= |s| && s[..|prefix|] == prefix
  }

  predicate OccursAt(s: string, pat: string, i: nat)
  {
    i + |pat| <= |s| && s[i..i + |pat|] == pat
  }

  /** `s.indexOf(pat, from)`: the first position at or after `from` where `pat` occurs. */
  function IndexOf(s: string, pat: string, from: nat): (r: Option<nat>)
    ensures r.Some? ==> from <= r.value && OccursAt(s, pat, r.value)
    ensures r.Some? ==> forall j :: from <= j < r.value ==> !OccursAt(s, pat, j)
    ensures r.None? ==> forall j :: from <= j ==> !OccursAt(s, pat, j)
    decreases |s| - from
  {
    if from + |pat| > |s| then None
    else if s[from..from + |pat|] == pat then Some(from)
    else IndexOf(s, pat, from + 1)
  }

  /**
   * `s.replace(pat, rep)` with a string pattern and a replacement without
   * `$` patterns: only the first occurrence is replaced, and a string
   * without one is returned as it is.
   */
  function ReplaceFirst(s: string, pat: string, rep: string): (r: string)
    ensures (forall j: nat :: !OccursAt(s, pat, j)) ==> r == s
  {
    match IndexOf(s, pat, 0)
    case None => s
    case Some(i) => s[..i] + rep + s[i + |pat|..]
  }

  /** Where `pat` first occurs at `i`, `replace` puts `rep` in place of that occurrence only. */
  lemma ReplaceFirstAt(s: string, pat: string, rep: string, i: nat)
    requires OccursAt(s, pat, i) && forall j: nat :: j < i ==> !OccursAt(s, pat, j)
    ensures ReplaceFirst(s, pat, rep) == s[..i] + rep + s[i + |pat|..]
  {
  }

  /** Replacing a leading occurrence by nothing strips exactly that prefix. */
  lemma StripLeading(s: string, prefix: string)
    requires StartsWith(s, prefix)
    ensures ReplaceFirst(s, prefix, "") == s[|prefix|..]
  {
  }

  // ---------------------------------------------------------------------
  // Routing and the conversation handed to the processor
  // ---------------------------------------------------------------------

  /** One entry of the conversation; `images` is empty where the source gives no `images` field. */
  datatype Turn = Turn(role: string, content: string, images: seq<string>)

  datatype Plan =
    | ImagePlan(conversation: seq<Turn>)  // `text_to_image` template, then `generate_images`
    | TextPlan(conversation: seq<Turn>)   // default template, then `generate`

  /** `message.image` is truthy: present and not the empty string. */
  predicate HasImage(m: Message): (b: bool)
    ensures m.image.None? ==> !b
    ensures m.image == Some("") ==> !b
    ensures m.image.Some? && |m.image.value| > 0 ==> b
  {
    m.image.Some? && m.image.value != ""
  }

  /**
   * How `generate` treats the last message: an `/imagine ` command becomes an
   * image request for the rest of the text; anything else is answered as
   * text, about the attached image when there is one.
   */
  function Route(m: Message): (p: Plan)
    ensures p.ImagePlan? <==> StartsWith(m.content, ImageGenerationCommandPrefix)
    ensures p.ImagePlan? ==>
              p.conversation == [Turn("User", m.content[|ImageGenerationCommandPrefix|..], [])]
    ensures p.TextPlan? && HasImage(m) ==>
              p.conversation == [Turn("User", ImagePlaceholder + m.content, [m.image.value])]
    ensures p.TextPlan? && !HasImage(m) ==>
              p.conversation == [Turn("System", SystemPrompt, []), Turn("User", m.content, [])]
  {
    if StartsWith(m.content, ImageGenerationCommandPrefix) then
      StripLeading(m.content, ImageGenerationCommandPrefix);
      ImagePlan([Turn("User", ReplaceFirst(m.content, ImageGenerationCommandPrefix, ""), [])])
    else if HasImage(m) then
      TextPlan([Turn("User", ImagePlaceholder + m.content, [m.image.value])])
    else
      TextPlan([Turn("System", SystemPrompt, []), Turn("User", m.content, [])])
  }

  /** The generation call a plan leads to, with the options the source passes. */
  datatype LibraryCall =
    | GenerateImages(conversation: seq<Turn>, chatTemplate: string,
                     minNewTokens: nat, maxNewTokens: nat, doSample: bool, stoppable: bool)
    | GenerateText(conversation: seq<Turn>, maxNewTokens: nat, doSample: bool, stoppable: bool)

  /**
   * Image generation asks for exactly the processor's number of image tokens
   * and samples; text generation is greedy and capped at 1024 new tokens.
   * Only text generation is handed the shared stopping criteria, so only it
   * can be interrupted.
   */
  function CallFor(plan: Plan, numImageTokens: nat): (c: LibraryCall)
    ensures c.conversation == plan.conversation
    ensures c.GenerateImages? <==> plan.ImagePlan?
    ensures c.GenerateImages? ==>
              c.chatTemplate == "text_to_image" && c.doSample &&
              c.minNewTokens == c.maxNewTokens == numImageTokens
    ensures c.GenerateText? ==> c.maxNewTokens == MaxNewTextTokens && !c.doSample
    ensures c.stoppable <==> c.GenerateText?
  {
    match plan
    case ImagePlan(conversation) =>
      GenerateImages(conversation, "text_to_image", numImageTokens, numImageTokens, true, false)
    case TextPlan(conversation) => GenerateText(conversation, MaxNewTextTokens, false, true)
  }

  // ---------------------------------------------------------------------
  // The opaque library
  // ---------------------------------------------------------------------

  datatype Processor = Processor(id: nat, numImageTokens: nat)
  datatype Model = Model(id: nat)

  /**
   * How a `from_pretrained` call settles, with the progress reports it makes
   * before it does.
   */
  datatype Pretrained<T> = Resolves(value: T, reports: seq<Event>) | Rejects(reports: seq<Event>)

  /** A call the text streamer receives: a token (at a clock reading) or a piece of decoded text. */
  datatype TextCall = TokenPut(now: real) | TextChunk(output: string)

  /**
   * What the library's calls do.  A call that rejects makes its streamer
   * calls first; nothing in the worker catches the rejection.
   */
  datatype Library = Library(
    processor: Pretrained<Processor>,
    model: Pretrained<Model>,
    prepared: bool,             // `processor(conversation, ...)` resolves
    textCalls: seq<TextCall>,   // made by `model.generate` on the text streamer
    imagePuts: seq<real>,       // clock readings at which `generate_images` calls `put`
    generated: bool,            // `model.generate` / `generate_images` resolves
    image: Option<Blob>)        // what `outputs[0].toBlob()` resolves to; `None`: it rejects

  // ---------------------------------------------------------------------
  // The token counter of text generation
  // ---------------------------------------------------------------------

  /** The closure variables of `token_callback_function`. */
  datatype Counter = Counter(startTime: Option<real>, numTokens: nat, tps: Option<Rate>)

  /** One token callback: the clock starts on the first, the rate is taken from the second on. */
  function Tick(c: Counter, now: real): (r: Counter)
    ensures r.numTokens == c.numTokens + 1
    ensures r.startTime == Some(if c.startTime.Some? then c.startTime.value else now)
    ensures c.numTokens == 0 ==> r.tps == c.tps
    ensures c.numTokens > 0 ==> r.tps == Some(Rate(r.numTokens, now - r.startTime.value))
  {
    var start := if c.startTime.Some? then c.startTime.value else now;
    var n := c.numTokens + 1;
    Counter(Some(start), n, if c.numTokens > 0 then Some(Rate(n, now - start)) else c.tps)
  }

  /** The counter after token callbacks at the clock readings `nows`. */
  function Ticks(nows: seq<real>): Counter
    decreases |nows|
  {
    if nows == [] then Counter(None, 0, None)
    else Tick(Ticks(nows[..|nows| - 1]), nows[|nows| - 1])
  }

  /**
   * After k callbacks the count is k, the clock started at the first one,
   * and a rate exists exactly when k >= 2, taken over all k tokens since then.
   */
  lemma {:induction false} TicksCount(nows: seq<real>)
    ensures Ticks(nows).numTokens == |nows|
    ensures Ticks(nows).startTime == if nows == [] then None else Some(nows[0])
    ensures Ticks(nows).tps.Some? <==> |nows| >= 2
    ensures |nows| >= 2 ==>
              Ticks(nows).tps == Some(Rate(|nows|, nows[|nows| - 1] - nows[0]))
    decreases |nows|
  {
    if nows != [] {
      var init := nows[..|nows| - 1];
      TicksCount(init);
      if init != [] {
        assert init[0] == nows[0];
      }
    }
  }

  class TokenCounter {
    var startTime: Option<real>
    var numTokens: nat
    var tps: Option<Rate>
    ghost var Stamps: seq<real>   // the clock readings of the callbacks so far

    ghost predicate Valid()
      reads this
    {
      Counter(startTime, numTokens, tps) == Ticks(Stamps)
    }

    constructor ()
      ensures Valid() && Stamps == []
      ensures numTokens == 0 && startTime == None && tps == None
    {
      startTime, numTokens, tps := None, 0, None;
      Stamps := [];
    }

    /** `token_callback_function`, called with the current clock reading. */
    method OnToken(now: real)
      requires Valid()
      modifies this
      ensures Valid() && Stamps == old(Stamps) + [now]
      ensures numTokens == old(numTokens) + 1
      ensures startTime == Some(if old(startTime).Some? then old(startTime).value else now)
      ensures old(numTokens) == 0 ==> tps == old(tps)
      ensures old(numTokens) > 0 ==> tps == Some(Rate(numTokens, now - startTime.value))
    {
      if startTime.None? {
        startTime := Some(now);
      }
      var before := numTokens;
      numTokens := numTokens + 1;
      if before > 0 {
        tps := Some(Rate(numTokens, now - startTime.value));
      }
      Stamps := Stamps + [now];
      assert Stamps[..|Stamps| - 1] == old(Stamps);
    }
  }

  /** The clock readings of the token calls among `calls`. */
  function Stamps(calls: seq<TextCall>): seq<real>
    decreases |calls|
  {
    if calls == [] then []
    else
      var init := Stamps(calls[..|calls| - 1]);
      match calls[|calls| - 1]
      case TokenPut(now) => init + [now]
      case TextChunk(_) => init
  }

  /**
   * The `text-update` events of one text generation: each piece of text is
   * posted with the rate and the token count as they stand at that moment.
   */
  function TextEvents(calls: seq<TextCall>): seq<Event>
    decreases |calls|
  {
    if calls == [] then []
    else
      var init := TextEvents(calls[..|calls| - 1]);
      match calls[|calls| - 1]
      case TokenPut(_) => init
      case TextChunk(output) =>
        var c := Ticks(Stamps(calls[..|calls| - 1]));
        init + [TextUpdate(output, c.tps, c.numTokens)]
  }

  /** The decoded text of `calls`, in order. */
  function Outputs(calls: seq<TextCall>): string
    decreases |calls|
  {
    if calls == [] then ""
    else
      var init := Outputs(calls[..|calls| - 1]);
      match calls[|calls| - 1]
      case TokenPut(_) => init
      case TextChunk(output) => init + output
  }

  /** The number of text-update events text generation posts: one per piece of text. */
  function ChunkCount(calls: seq<TextCall>): nat
    decreases |calls|
  {
    if calls == [] then 0
    else ChunkCount(calls[..|calls| - 1]) + (if calls[|calls| - 1].TextChunk? then 1 else 0)
  }

  /**
   * Text generation posts one `text-update` per piece of text, each with the
   * number of tokens seen so far, never more than the tokens in `calls`.
   */
  lemma {:induction false} TextEventsShape(calls: seq<TextCall>)
    ensures |TextEvents(calls)| == ChunkCount(calls)
    ensures forall i :: 0 <= i < |TextEvents(calls)| ==> TextEvents(calls)[i].TextUpdate?
    ensures forall i :: 0 <= i < |TextEvents(calls)| ==>
              TextEvents(calls)[i].numTokens <= |Stamps(calls)|
    decreases |calls|
  {
    if calls != [] {
      var init := calls[..|calls| - 1];
      TextEventsShape(init);
      TicksCount(Stamps(init));
    }
  }

  /** What is posted for a prefix of the calls is a prefix of what is posted for all of them. */
  lemma {:induction false} TextEventsPrefix(calls: seq<TextCall>, k: nat)
    requires k <= |calls|
    ensures TextEvents(calls[..k]) <= TextEvents(calls)
    decreases |calls|
  {
    if k < |calls| {
      var init := calls[..|calls| - 1];
      assert calls[..k] == init[..k];
      TextEventsPrefix(init, k);
    } else {
      assert calls[..k] == calls;
    }
  }

  /**
   * The piece of text `calls[j]` is posted in the `text-update` after those
   * of the earlier pieces, with the number of tokens the streamer has seen
   * before it and the rate as the counter then stands.
   */
  lemma TextEventAt(calls: seq<TextCall>, j: nat)
    requires j < |calls| && calls[j].TextChunk?
    ensures ChunkCount(calls[..j]) < |TextEvents(calls)|
    ensures TextEvents(calls)[ChunkCount(calls[..j])] ==
            TextUpdate(calls[j].output, Ticks(Stamps(calls[..j])).tps, |Stamps(calls[..j])|)
  {
    var upto := calls[..j + 1];
    assert upto[..|upto| - 1] == calls[..j];
    TextEventsPrefix(calls, j + 1);
    TextEventsShape(calls[..j]);
    TicksCount(Stamps(calls[..j]));
  }

  // ---------------------------------------------------------------------
  // The image progress streamer
  // ---------------------------------------------------------------------

  /** The report the image streamer's `put` number `k + 1` makes, for k >= 1. */
  function ImageReport(total: int, puts: seq<real>, k: nat): Event
    requires 1 <= k < |puts|
  {
    ImageUpdate(None, Some(Ratio(k, total)), Some(puts[k] - puts[0]))
  }

  /** The `image-update` reports of `put` calls at the clock readings `puts`. */
  function ImageEvents(total: int, puts: seq<real>): seq<Event>
    decreases |puts|
  {
    if |puts| <= 1 then []
    else ImageEvents(total, puts[..|puts| - 1]) + [ImageReport(total, puts, |puts| - 1)]
  }

  /**
   * The first `put` reports nothing; every later one reports, in order, one
   * more token out of `total`, and the time since the first.
   */
  lemma {:induction false} ImageEventsShape(total: int, puts: seq<real>)
    ensures |ImageEvents(total, puts)| == if puts == [] then 0 else |puts| - 1
    ensures forall i :: 0 <= i < |ImageEvents(total, puts)| ==>
              ImageEvents(total, puts)[i] ==
              ImageUpdate(None, Some(Ratio(i + 1, total)), Some(puts[i + 1] - puts[0]))
    decreases |puts|
  {
    if |puts| > 1 {
      var init := puts[..|puts| - 1];
      ImageEventsShape(total, init);
      assert forall j :: 0 <= j < |init| ==> init[j] == puts[j];
    }
  }

  class ProgressStreamer {
    const total: int
    var count: Option<nat>        // null until the first `put`
    var startTime: Option<real>
    ghost var Puts: seq<real>     // the clock readings of the `put` calls so far

    ghost predicate Valid()
      reads this
    {
      (Puts == [] ==> count == None && startTime == None) &&
      (Puts != [] ==> count == Some(|Puts| - 1) && startTime == Some(Puts[0]))
    }

    constructor (total: int)
      ensures Valid() && Puts == [] && this.total == total
    {
      this.total := total;
      count, startTime := None, None;
      Puts := [];
    }

    /**
     * `put`, called with the current clock reading; returns the report it
     * passes to `on_progress`, if any.
     */
    method Put(now: real) returns (report: Option<Event>)
      requires Valid()
      modifies this
      ensures Valid() && Puts == old(Puts) + [now]
      ensures report == if old(Puts) == [] then None else Some(ImageReport(total, Puts, |old(Puts)|))
    {
      Puts := Puts + [now];
      if count.None? {
        count, startTime := Some(0), Some(now);
        report := None;
        return;
      }
      count := Some(count.value + 1);
      report := Some(ImageUpdate(None, Some(Ratio(count.value, total)), Some(now - startTime.value)));
    }
  }

  // ---------------------------------------------------------------------
  // Loading the pipeline
  // ---------------------------------------------------------------------

  /**
   * What one `getInstance` call leaves in the two slots, and the progress
   * reports it passes to its callback.
   */
  datatype Loaded = Loaded(processor: Option<Processor>, model: Option<Model>, reports: seq<Event>)
  {
    /** The call resolves: both slots are filled. */
    predicate Resolves()
    {
      processor.Some? && model.Some?
    }
  }

  /**
   * `getInstance(callback)` from the slots `processor` and `model`: each
   * empty slot is loaded in turn, a filled one is kept, and a rejecting load
   * leaves its slot empty and ends the call, so the model is not loaded when
   * the processor fails.  Progress is reported only with a callback, and
   * only for what was loaded.
   */
  function GetInstanceOutcome(processor: Option<Processor>, model: Option<Model>, lib: Library,
                              withCallback: bool): (r: Loaded)
    ensures r.Resolves() <==>
              (processor.Some? || lib.processor.Resolves?) && (model.Some? || lib.model.Resolves?)
    ensures processor.Some? ==> r.processor == processor
    ensures processor.None? ==>
              r.processor == if lib.processor.Resolves? then Some(lib.processor.value) else None
    ensures r.processor.None? || model.Some? ==> r.model == model
    ensures r.processor.Some? && model.None? ==>
              r.model == if lib.model.Resolves? then Some(lib.model.value) else None
    ensures !withCallback ==> r.reports == []
    ensures withCallback ==>
              r.reports == (if processor.None? then lib.processor.reports else []) +
                           (if r.processor.Some? && model.None? then lib.model.reports else [])
  {
    var processorReports := if withCallback && processor.None? then lib.processor.reports else [];
    if processor.None? && lib.processor.Rejects? then Loaded(None, model, processorReports)
    else
      var p := if processor.Some? then processor else Some(lib.processor.value);
      var modelReports := if withCallback && model.None? then lib.model.reports else [];
      if model.None? && lib.model.Rejects? then Loaded(p, None, processorReports + modelReports)
      else Loaded(p, if model.Some? then model else Some(lib.model.value), processorReports + modelReports)
  }

  /** Once a call has resolved, every later one returns the same pair and reports nothing. */
  lemma LoadsOnce(processor: Option<Processor>, model: Option<Model>, lib: Library, withCallback: bool,
                  later: Library, laterCallback: bool)
    requires GetInstanceOutcome(processor, model, lib, withCallback).Resolves()
    ensures var r := GetInstanceOutcome(processor, model, lib, withCallback);
            GetInstanceOutcome(r.processor, r.model, later, laterCallback) == Loaded(r.processor, r.model, [])
  {
  }

  /** The events `load` posts: `loading`, the progress reports, and `ready` when loading resolves. */
  function LoadEvents(processor: Option<Processor>, model: Option<Model>, lib: Library): seq<Event>
  {
    var r := GetInstanceOutcome(processor, model, lib, true);
    [LoadingStarted(LoadingMessage)] + r.reports + (if r.Resolves() then [Event.Ready] else [])
  }

  // ---------------------------------------------------------------------
  // The events of `generate`
  // ---------------------------------------------------------------------

  /**
   * The calls `generate` makes after loading all resolve: preparing the
   * inputs, generating, and, for an image, encoding it.
   */
  predicate Answered(m: Message, lib: Library)
  {
    lib.prepared && lib.generated && (Route(m).ImagePlan? ==> lib.image.Some?)
  }

  /** Every library call `generate` makes to answer `m`, from the given slots, resolves. */
  predicate Completes(m: Message, processor: Option<Processor>, model: Option<Model>, lib: Library)
  {
    GetInstanceOutcome(processor, model, lib, false).Resolves() && Answered(m, lib)
  }

  /**
   * `generate(messages)` from the given slots: nothing at all for an empty
   * list; otherwise `start`, then, once the pipeline is there, the updates
   * of the chosen path, and `complete` only when every call resolves.
   */
  function GenerateEvents(messages: seq<Message>, processor: Option<Processor>, model: Option<Model>,
                          lib: Library): seq<Event>
  {
    if messages == [] then []
    else
      var r := GetInstanceOutcome(processor, model, lib, false);
      var m := messages[|messages| - 1];
      if !r.Resolves() then [Start]
      else [Start] + Updates(m, r.processor.value, lib) + (if Answered(m, lib) then [Complete] else [])
  }

  /**
   * The updates posted while answering `m`, once the inputs are prepared:
   * the image path's progress reports and, when the image is there, the
   * image; or the text path's pieces of text.
   */
  function Updates(m: Message, processor: Processor, lib: Library): seq<Event>
  {
    if !lib.prepared then []
    else if Route(m).ImagePlan? then
      ImageEvents(processor.numImageTokens, lib.imagePuts) +
      (if lib.generated && lib.image.Some? then [ImageUpdate(Some(lib.image.value), None, None)] else [])
    else TextEvents(lib.textCalls)
  }

  /**
   * `generate` posts nothing for no messages; otherwise `start` comes first
   * and everything after it is a text or image update, except a last
   * `complete`, which is posted exactly when every library call resolves.
   */
  lemma GenerateOrder(messages: seq<Message>, processor: Option<Processor>, model: Option<Model>, lib: Library)
    ensures messages == [] <==> GenerateEvents(messages, processor, model, lib) == []
    ensures messages != [] ==>
              var evs := GenerateEvents(messages, processor, model, lib);
              var done := Completes(messages[|messages| - 1], processor, model, lib);
              evs[0] == Start &&
              (forall i :: 0 < i < |evs| - 1 ==> evs[i].TextUpdate? || evs[i].ImageUpdate?) &&
              (Complete in evs <==> done) &&
              (done ==> |evs| >= 2 && evs[|evs| - 1] == Complete) &&
              (!done ==> forall i :: 0 < i < |evs| ==> evs[i].TextUpdate? || evs[i].ImageUpdate?)
  {
    if messages != [] {
      var r := GetInstanceOutcome(processor, model, lib, false);
      if r.Resolves() {
        var m := messages[|messages| - 1];
        var ups := Updates(m, r.processor.value, lib);
        TextEventsShape(lib.textCalls);
        ImageEventsShape(r.processor.value.numImageTokens, lib.imagePuts);
        assert forall i :: 0 <= i < |ups| ==> ups[i].TextUpdate? || ups[i].ImageUpdate?;
      }
    }
  }

  // ---------------------------------------------------------------------
  // Worker state
  // ---------------------------------------------------------------------

  /** The flag an `InterruptableStoppingCriteria` keeps. */
  class StoppingCriteria {
    var interrupted: bool

    constructor ()
      ensures !interrupted
    {
      interrupted := false;
    }

    method Interrupt()
      modifies this
      ensures interrupted
    {
      interrupted := true;
    }

    method Reset()
      modifies this
      ensures !interrupted
    {
      interrupted := false;
    }
  }

  /** The lazily loaded processor and model, shared by every request. */
  class ImageGenerationPipeline {
    var processor: Option<Processor>
    var model: Option<Model>

    constructor ()
      ensures processor == None && model == None
    {
      processor, model := None, None;
    }

    /**
     * `getInstance`: returns the pair when both loads resolve, and nothing
     * when one rejects; the slots and the reports are those of
     * `GetInstanceOutcome`.
     */
    method GetInstance(withCallback: bool, lib: Library) returns (instance: Option<(Processor, Model)>, reports: seq<Event>)
      modifies this
      ensures var r := GetInstanceOutcome(old(processor), old(model), lib, withCallback);
              processor == r.processor && model == r.model && reports == r.reports &&
              instance == if r.Resolves() then Some((r.processor.value, r.model.value)) else None
    {
      reports := [];
      if processor.None? {
        if withCallback {
          reports := reports + lib.processor.reports;
        }
        match lib.processor {
          case Rejects(_) =>
            return None, reports;
          case Resolves(p, _) =>
            processor := Some(p);
        }
      }
      if model.None? {
        if withCallback {
          reports := reports + lib.model.reports;
        }
        match lib.model {
          case Rejects(_) =>
            return None, reports;
          case Resolves(m, _) =>
            model := Some(m);
        }
      }
      instance := Some((processor.value, model.value));
    }
  }

  /** What a request starts, apart from its effect on the flag. */
  datatype Action = RunCheck | RunLoad | RunGenerate | NoAction

  /** The worker's global scope: the shared pipeline and stop flag, and what it has posted. */
  class Scope {
    const pipeline: ImageGenerationPipeline
    const stopping: StoppingCriteria
    var outbox: seq<Event>   // everything posted to the view, in order

    constructor ()
      ensures fresh(pipeline) && fresh(stopping) && outbox == []
      ensures pipeline.processor == None && pipeline.model == None && !stopping.interrupted
    {
      pipeline := new ImageGenerationPipeline();
      stopping := new StoppingCriteria();
      outbox := [];
    }

    method Post(e: Event)
      modifies this
      ensures outbox == old(outbox) + [e]
    {
      outbox := outbox + [e];
    }

    /** Feeds the library's text-streamer calls through a fresh token counter. */
    method StreamText(calls: seq<TextCall>)
      modifies this
      ensures outbox == old(outbox) + TextEvents(calls)
    {
      var counter := new TokenCounter();
      var i := 0;
      while i < |calls|
        invariant 0 <= i <= |calls|
        invariant counter.Valid() && counter.Stamps == Stamps(calls[..i])
        invariant outbox == old(outbox) + TextEvents(calls[..i])
        modifies this, counter
      {
        assert calls[..i + 1][..i] == calls[..i];
        match calls[i] {
          case TokenPut(now) =>
            counter.OnToken(now);
          case TextChunk(output) =>
            Post(TextUpdate(output, counter.tps, counter.numTokens));
        }
        i := i + 1;
      }
      assert calls[..i] == calls;
    }

    /** Feeds the library's `put` calls through a fresh image progress streamer. */
    method StreamImage(total: int, puts: seq<real>)
      modifies this
      ensures outbox == old(outbox) + ImageEvents(total, puts)
    {
      var streamer := new ProgressStreamer(total);
      var i := 0;
      while i < |puts|
        invariant 0 <= i <= |puts|
        invariant streamer.Valid() && streamer.Puts == puts[..i] && streamer.total == total
        invariant outbox == old(outbox) + ImageEvents(total, puts[..i])
        modifies this, streamer
      {
        assert puts[..i + 1][..i] == puts[..i];
        var report := streamer.Put(puts[i]);
        if report.Some? {
          Post(report.value);
        }
        i := i + 1;
      }
      assert puts[..i] == puts;
    }

    /**
     * `generate(messages)`: posts `GenerateEvents` from the current slots and
     * returns the generation call made for the last message, if loading and
     * preparing the inputs got that far.  A rejected call ends it there.
     */
    method Generate(messages: seq<Message>, lib: Library) returns (call: Option<LibraryCall>)
      modifies this, pipeline
      ensures outbox ==
                old(outbox) + GenerateEvents(messages, old(pipeline.processor), old(pipeline.model), lib)
      ensures messages == [] ==>
                call == None &&
                pipeline.processor == old(pipeline.processor) && pipeline.model == old(pipeline.model)
      ensures messages != [] ==>
                var r := GetInstanceOutcome(old(pipeline.processor), old(pipeline.model), lib, false);
                pipeline.processor == r.processor && pipeline.model == r.model &&
                call == if r.Resolves() && lib.prepared
                        then Some(CallFor(Route(messages[|messages| - 1]), r.processor.value.numImageTokens))
                        else None
    {
      if messages == [] {
        return None;
      }
      var message := messages[|messages| - 1];
      ghost var r := GetInstanceOutcome(pipeline.processor, pipeline.model, lib, false);
      ghost var events := GenerateEvents(messages, pipeline.processor, pipeline.model, lib);
      Post(Start);
      var instance, _ := pipeline.GetInstance(false, lib);
      if instance.None? || !lib.prepared {
        assert events == [Start] + (if instance.None? then [] else Updates(message, r.processor.value, lib));
        return None;
      }
      var processor := instance.value.0;
      assert events == [Start] + Updates(message, processor, lib) +
                       (if Answered(message, lib) then [Complete] else []);
      var route := Route(message);
      call := Some(CallFor(route, processor.numImageTokens));
      if route.ImagePlan? {
        StreamImage(processor.numImageTokens, lib.imagePuts);
        if lib.generated && lib.image.Some? {
          Post(ImageUpdate(Some(lib.image.value), None, None));
          Post(Complete);
        }
      } else {
        StreamText(lib.textCalls);
        if lib.generated {
          Post(Complete);
        }
      }
    }

    /**
     * `load`: announces loading, loads the pipeline reporting progress, and
     * says it is ready unless a load rejects.
     */
    method Load(lib: Library)
      modifies this, pipeline
      ensures outbox == old(outbox) + LoadEvents(old(pipeline.processor), old(pipeline.model), lib)
      ensures var r := GetInstanceOutcome(old(pipeline.processor), old(pipeline.model), lib, true);
              pipeline.processor == r.processor && pipeline.model == r.model
    {
      Post(LoadingStarted(LoadingMessage));
      var instance, reports := pipeline.GetInstance(true, lib);
      outbox := outbox + reports;
      if instance.Some? {
        Post(Event.Ready);
      }
    }

    /**
     * The worker's message listener.  `interrupt` raises the stop flag;
     * `generate` and `reset` lower it, `generate` before generating; other
     * request types leave the flag, the pipeline and the outbox alone.
     */
    method OnMessage(req: Request, lib: Library) returns (action: Action)
      modifies this, pipeline, stopping
      ensures stopping.interrupted ==
                (if req.Interrupt? then true
                 else if req.Generate? || req.Reset? then false
                 else old(stopping.interrupted))
      ensures action == match req
                        case Check => RunCheck
                        case Load => RunLoad
                        case Generate(_) => RunGenerate
                        case _ => NoAction
      ensures !(req.Load? || req.Generate?) ==>
                outbox == old(outbox) &&
                pipeline.processor == old(pipeline.processor) && pipeline.model == old(pipeline.model)
      ensures req.Load? ==>
                var r := GetInstanceOutcome(old(pipeline.processor), old(pipeline.model), lib, true);
                outbox == old(outbox) + LoadEvents(old(pipeline.processor), old(pipeline.model), lib) &&
                pipeline.processor == r.processor && pipeline.model == r.model
      ensures req.Generate? ==>
                outbox == old(outbox) +
                GenerateEvents(req.data, old(pipeline.processor), old(pipeline.model), lib)
      ensures req.Generate? && req.data != [] ==>
                var r := GetInstanceOutcome(old(pipeline.processor), old(pipeline.model), lib, false);
                pipeline.processor == r.processor && pipeline.model == r.model
      ensures req.Generate? && req.data == [] ==>
                pipeline.processor == old(pipeline.processor) && pipeline.model == old(pipeline.model)
    {
      match req
      case Check =>
        action := RunCheck;
      case Load =>
        Load(lib);
        action := RunLoad;
      case Generate(data) =>
        stopping.Reset();
        var _ := Generate(data, lib);
        action := RunGenerate;
      case Interrupt =>
        stopping.Interrupt();
        action := NoAction;
      case Reset =>
        stopping.Reset();
        action := NoAction;
      case Unknown(_) =>
        action := NoAction;
    }
  }
}
