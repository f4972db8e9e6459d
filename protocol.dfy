/**
 * Values exchanged between the chat view and the generation worker.
 *
 * The worker talks to the view only through structured messages: the view
 * sends requests tagged by `type`, the worker posts events tagged by
 * `status`.  Both directions are modelled here as datatypes; the channel
 * itself is an ordered sequence of them.
 */
module Protocol {

  datatype Option<+T> = None | Some(value: T)

  /** A scalar field of a loosely typed message object. */
  datatype Value = Str(s: string) | Num(n: real) | Bool(b: bool) | Null

  /**
   * A loosely typed object such as a download-progress report: field name to
   * value.  A field that is absent is `undefined` in the source.
   */
  type Record = map<string, Value>

  /** Reads a field; `None` stands for `undefined`. */
  function Field(r: Record, name: string): (v: Option<Value>)
    ensures v.Some? <==> name in r
    ensures v.Some? ==> v.value == r[name]
  {
    if name in r then Some(r[name]) else None
  }

  /** The `file` field of a progress report, the key the view groups reports by. */
  function FileOf(r: Record): Option<Value>
  {
    Field(r, "file")
  }

  /** The object spread `{ ...base, ...overlay }`: fields of `overlay` win. */
  function Overlay(base: Record, overlay: Record): (r: Record)
    ensures r.Keys == base.Keys + overlay.Keys
    ensures forall k :: k in overlay ==> r[k] == overlay[k]
    ensures forall k :: k in base && k !in overlay ==> r[k] == base[k]
  {
    base + overlay
  }

  /** One chat turn, as kept by the view and sent to the worker. */
  datatype Message = Message(role: string, content: string, image: Option<string>)

  const UserRole := "user"
  const AssistantRole := "assistant"

  /**
   * Tokens per second, kept as the two numbers the source divides
   * (`tokens / elapsedMs * 1000`), so that no floating point is needed.
   */
  datatype Rate = Rate(tokens: nat, elapsedMs: real)

  /** A fraction `count / total`, as the source computes image progress. */
  datatype Ratio = Ratio(count: nat, total: int)

  /**
   * A generated image.  The model keeps only the object URL that
   * `URL.createObjectURL` hands out for it.
   */
  datatype Blob = Blob(objectUrl: string)

  /** Events the worker posts to the view, by their `status` tag. */
  datatype Event =
    | CheckSuccess(fp16: bool)          // "success"
    | CheckError(message: string)       // "error"
    | LoadingStarted(message: string)   // "loading"
    | Initiate(item: Record)            // "initiate": the whole report object
    | Progress(item: Record)            // "progress"
    | Done(item: Record)                // "done"
    | Ready                             // "ready"
    | Start                             // "start"
    | TextUpdate(output: string, tps: Option<Rate>, numTokens: nat)            // "text-update"
    | ImageUpdate(blob: Option<Blob>, progress: Option<Ratio>, time: Option<real>) // "image-update"
    | Complete                          // "complete"
    | Other(status: string)             // any other tag, e.g. "download"

  /** Requests the view posts to the worker, by their `type` tag. */
  datatype Request =
    | Check
    | Load
    | Generate(data: seq<Message>)
    | Interrupt
    | Reset
    | Unknown(kind: string)
}
