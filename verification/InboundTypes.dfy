/** What the inbox keeps of a message, what the service answers about it, and what can be seen of its handling. */
module InboundTypes {
  import opened Effects

  /** The destination a task input is frozen to. */
  datatype Pin = Pin(binding: nat, generation: nat)

  datatype Command = NoCommand | Help | Status | TaskStatus

  datatype Operation = Message | Unbind | Bind | Create | Lookup(command: Command)

  /** What was said: texts are numbered, and these are the fixed ones of the relay. */
  type Text = nat

  const FILES_UNSUPPORTED: Text := 0
  const UPLOAD_FAILED: Text := 1
  const TOO_MANY_IMAGES: Text := 2
  const TOO_MANY_BYTES: Text := 3
  const NOT_RECEIVED: Text := 4
  const FORMAT_REFUSED: Text := 5
  const BINDING_CHANGED: Text := 6
  const NOT_BOUND: Text := 7
  const REBIND: Text := 8
  const USE_BIND: Text := 9
  const INCOMPLETE: Text := 10

  datatype Input = Input(
    operation: Operation, explicitBinding: bool, group: bool, sender: nat, message: nat, content: nat,
    images: nat, unsupportedFile: bool, mediaRejection: Option<Text>, requireRobotQuote: bool, displayText: bool,
    command: bool)  // whether the Bridge answers the text itself: a task request, a command, a question for progress

  /** The text with which the input is refused as a whole, whatever its destination. */
  function Refusal(input: Input): (r: Option<Text>)
    ensures r.Some? <==> input.unsupportedFile || input.mediaRejection.Some?
    ensures !input.unsupportedFile ==> r == input.mediaRejection
  {
    if input.unsupportedFile then Some(FILES_UNSUPPORTED) else input.mediaRejection
  }

  /** The request body of one `issue-relay` POST. */
  datatype Body = Body(
    operation: Operation, scope: nat, message: nat, content: nat, expected: Option<Pin>,
    issue: Option<nat>, attachments: Option<seq<nat>>, metadata: nat)

  /** A decision kept to be repeated; without text, or silent, there is nothing to send. */
  datatype Notice = Notice(text: Option<Text>, silent: bool) {
    predicate Speaks() { text.Some? && !silent }
  }

  datatype Record = Record(
    id: nat, input: Input, prepared: Option<Body>, preflightPending: bool, mediaPrepared: Option<bool>,
    chatHandoff: bool, notice: Option<Notice>, chatSubmitting: bool, chatSubmitted: bool, quarantined: bool,
    mediaCommitted: bool, stageAttempts: nat, uploadAttempts: nat, quoteVerified: bool)

  function Fresh(id: nat, input: Input): Record {
    Record(id, input, None, false, None, false, None, false, false, false, false, 0, 0, false)
  }

  /** Why Chat's own handling may let an input go without a word. */
  datatype Silence = Known(ids: set<nat>) | Barred(allowAllInGroups: bool, allowed: set<nat>)

  /** The message was handled before, or its group sender is not allowed. */
  predicate Justified(input: Input, why: Silence) {
    match why
    case Known(ids) => input.message in ids
    case Barred(all, allowed) => input.group && !all && input.sender !in allowed
  }

  // ---- What the service answers -------------------------------------------------------------

  /** Where a private conversation's binding stands, if it is one. */
  datatype Privacy = NotPrivate | Active | NeedsRebind | Inactive

  /** A binding as the service describes it; `title` is the text that presents it. */
  datatype BindingView = BindingView(
    pin: Option<Pin>, issue: Option<nat>, grouped: bool, groupActive: bool, privacy: Privacy, title: Text)

  /** A decision of the service, once its two booleans are validated. */
  datatype Decision = Decision(
    handled: bool, silent: bool, canComment: Option<bool>, canReconcile: bool, binding: Option<BindingView>,
    notice: Option<Text>, comment: bool, suppress: bool)
  {
    function Shown(): Notice { Notice(notice, silent) }

    predicate Commentable() { canComment == Some(true) }

    predicate Grouped() { binding.Some? && binding.value.grouped }
  }

  /** A staged image: its bytes, and how many they are. */
  datatype File = File(content: nat, size: nat)

  /** What came of fetching the images; some may be missing, or the whole attempt fails, perhaps for good. */
  datatype Fetched = Files(files: seq<File>, failures: Option<Text>) | Missed(permanent: bool, status: nat)

  /** What came of the request. */
  datatype Reply = Decided(decision: Decision) | Refused(status: nat)

  /**
   * What comes back while an input is handled: whom the robot speaks for, the preflight's decision, that on its
   * group, the images, data for a private binding, whether an upload arrived, the answer to the request, and the
   * decision on the group after it.
   */
  datatype Report =
    | Scoped(scope: nat)
    | Routed(decision: Decision)
    | Checked(decision: Decision)
    | Staged(fetched: Fetched)
    | Described(metadata: Option<nat>)
    | Received(received: Option<bool>)
    | Replied(reply: Reply)
    | Regrouped(decision: Decision)

  /** What the outside world sees, what was decided in silence, and the two kinds of marker files. */
  datatype Event =
    | Admitted(uid: nat, id: nat)
    | Heard(uid: nat, what: Report)
    | Posted(uid: nat, body: Body, ahead: set<nat>)
    | ChatPosted(uid: nat, id: nat)
    | RoutingNoticed(uid: nat, notice: Notice, final: bool)
    | Told(uid: nat, text: Text)
    | Answered(uid: nat)
    | HandedOver(uid: nat, durable: bool)
    | Dropped(uid: nat, why: Silence)
    | Quarantined(id: nat)
    | Tombstoned(id: nat)

  // ---- What is known of a record --------------------------------------------------------------

  predicate Mutating(op: Operation) { !op.Lookup? }

  predicate Versioned(op: Operation) { op == Message || op == Unbind }

  predicate PinnedTo(r: Record, binding: nat) {
    r.prepared.Some? && r.prepared.value.expected.Some? && r.prepared.value.expected.value.binding == binding
  }

  predicate PinnedElsewhere(r: Record, binding: nat) {
    r.prepared.Some? && r.prepared.value.expected.Some? && r.prepared.value.expected.value.binding != binding
  }

  /** Nothing selected a destination for this record yet. */
  predicate Unpinned(r: Record) { r.prepared.None? || r.prepared.value.expected.None? }

  /** A prepared input whose original destination cannot be proven; it is refused. */
  predicate Legacy(r: Record) { r.prepared.Some? && Versioned(r.input.operation) && r.prepared.value.expected.None? }

  /** The body may be sent: media, if any, is part of it. */
  predicate Sealed(r: Record) {
    r.prepared.Some? && !(r.input.operation == Message && r.mediaPrepared == Some(false))
  }

  /** Whether the destination must be asked for before acting. */
  predicate NeedsPreflight(r: Record, groups: bool) {
    || r.preflightPending || (r.input.images > 0 && r.mediaPrepared == Some(false))
    || (r.prepared.None? && (Versioned(r.input.operation) ||
                             (groups && r.input.group && r.input.operation == Lookup(NoCommand))))
  }

  /** The destination of a versioned input is pinned and was accepted. */
  predicate Settled(r: Record) {
    Versioned(r.input.operation) ==> !Unpinned(r) && !r.preflightPending
  }

  /** Images are still to be staged into the body. */
  predicate TakesImages(r: Record) {
    && r.input.images > 0 && Refusal(r.input).None?
    && (|| (r.input.operation == Create && r.prepared.None?)
        || (r.input.operation == Message && r.mediaPrepared == Some(false) && r.prepared.Some? && !r.preflightPending))
  }

  predicate UploadsUsed(r: Record) { r.input.images > 0 && r.uploadAttempts >= 3 }

  predicate Coherent(r: Record) {
    && (r.prepared.Some? ==> r.prepared.value.operation == r.input.operation)
    && (r.chatHandoff ==> r.notice.None? && (r.prepared.None? || r.input.operation.Lookup?))
    && (r.chatSubmitting ==> r.chatHandoff)
    && (r.chatSubmitted ==> r.chatHandoff)
    && (r.input.operation == Message && r.input.images > 0 && r.prepared.Some? && r.mediaPrepared != Some(false)
        ==> !r.preflightPending)
    && (r.input.images == 0 ==> r.mediaPrepared != Some(false))
    && (r.prepared.None? ==> r.uploadAttempts == 0)
  }

  // ---- Where the preflight sends an input -------------------------------------------------------

  /** A decision ends an input with a notice, hands it to Chat, or leaves it to a task. */
  datatype Destination = Says(notice: Notice) | ToChat | ToTask

  /**
   * An input that no binding claims: a message that is not handled becomes Chat's unless its media is refused;
   * whatever is handled, and an unbind, ends with the decision's own notice.
   */
  function DestinationOf(input: Input, d: Decision): Destination {
    if d.binding.None? && !d.handled && input.operation == Message then
      if Refusal(input).Some? then Says(Notice(Refusal(input), false)) else ToChat
    else if d.binding.None? && (d.handled || input.operation == Unbind) then
      Says(Notice(if d.notice.None? && input.operation == Unbind then Some(NOT_BOUND) else d.notice, d.silent))
    else ToTask
  }
}
